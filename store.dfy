/** The `subscriptions` table: the queries the handlers run against it
    (`update(...).eq(...)`, `upsert(..., { onConflict: 'user_id' })`,
    `insert`, `select().eq(...).single()` / `.maybeSingle()`), as pure
    functions over its rows, and a class that holds the rows. */
module Store {
  import opened Wrappers
  import opened Subscriptions

  /** The filter of a query: its chain of `.eq(column, value)` calls. */
  datatype Key =
    | ById(id: nat)
    | ByUser(user: UserId)
    | BySubscription(subscriptionId: string)
    | OwnedBy(subscriptionId: string, user: UserId)
    | ActiveOf(user: UserId)

  predicate Matches(r: Subscription, k: Key) {
    match k
    case ById(id) => r.id == id
    case ByUser(u) => r.userId == u
    case BySubscription(s) => r.subscriptionId == Some(s)
    case OwnedBy(s, u) => r.subscriptionId == Some(s) && r.userId == u
    case ActiveOf(u) => r.userId == u && r.status == Active
  }

  /** `update(p).eq(...)`: every row the filter selects gets the patch. */
  function UpdateWhere(rows: seq<Subscription>, k: Key, p: Patch): seq<Subscription> {
    seq(|rows|, i requires 0 <= i < |rows| =>
      if Matches(rows[i], k) then Apply(rows[i], p) else rows[i])
  }

  /** An update keeps the number of rows and their order, patches the rows the
      filter selects and leaves every other row as it was. */
  lemma UpdateWhereSpec(rows: seq<Subscription>, k: Key, p: Patch)
    ensures |UpdateWhere(rows, k, p)| == |rows|
    ensures forall i :: 0 <= i < |rows| && Matches(rows[i], k) ==>
      UpdateWhere(rows, k, p)[i] == Apply(rows[i], p)
    ensures forall i :: 0 <= i < |rows| && !Matches(rows[i], k) ==>
      UpdateWhere(rows, k, p)[i] == rows[i]
  {
  }

  /** `after` holds every row of `rows` at its old place, with its id and its
      owner: no write deletes a row or hands it to another user. */
  predicate KeepsOwners(rows: seq<Subscription>, after: seq<Subscription>) {
    && |rows| <= |after|
    && forall i :: 0 <= i < |rows| ==> after[i].id == rows[i].id && after[i].userId == rows[i].userId
  }

  /** Number of rows the filter selects. */
  function CountMatches(rows: seq<Subscription>, k: Key): nat {
    if rows == [] then 0
    else (if Matches(rows[0], k) then 1 else 0) + CountMatches(rows[1..], k)
  }

  lemma {:induction false} CountZero(rows: seq<Subscription>, k: Key)
    ensures CountMatches(rows, k) == 0 <==> forall i :: 0 <= i < |rows| ==> !Matches(rows[i], k)
  {
    if rows != [] {
      CountZero(rows[1..], k);
      assert forall i :: 1 <= i < |rows| ==> rows[i] == rows[1..][i - 1];
    }
  }

  lemma {:induction false} CountAppend(rows: seq<Subscription>, r: Subscription, k: Key)
    ensures CountMatches(rows + [r], k) == CountMatches(rows, k) + (if Matches(r, k) then 1 else 0)
  {
    if rows != [] {
      assert (rows + [r])[1..] == rows[1..] + [r];
      CountAppend(rows[1..], r, k);
    }
  }

  /** The patch leaves alone every column the filter `k` tests. */
  predicate KeepsMatch(p: Patch, k: Key) {
    match k
    case ById(_) => true
    case ByUser(_) => true
    case BySubscription(_) => p.subscriptionId.None?
    case OwnedBy(_, _) => p.subscriptionId.None?
    case ActiveOf(_) => p.status.None?
  }

  lemma ApplyKeepsMatch(r: Subscription, p: Patch, k: Key)
    requires KeepsMatch(p, k)
    ensures Matches(Apply(r, p), k) == Matches(r, k)
  {
  }

  /** An update that does not write the columns `k2` tests selects, afterwards,
      as many rows under `k2` as before. */
  lemma {:induction false} UpdateKeepsCount(rows: seq<Subscription>, k: Key, p: Patch, k2: Key)
    requires KeepsMatch(p, k2)
    ensures CountMatches(UpdateWhere(rows, k, p), k2) == CountMatches(rows, k2)
  {
    if rows != [] {
      var after := UpdateWhere(rows, k, p);
      assert after[1..] == UpdateWhere(rows[1..], k, p);
      ApplyKeepsMatch(rows[0], p, k2);
      UpdateKeepsCount(rows[1..], k, p, k2);
    }
  }

  /** Delivering the same update again, or a later one that writes every column
      the first wrote, leaves the rows as the later update alone would. */
  lemma UpdateTwiceLastWins(rows: seq<Subscription>, k: Key, p1: Patch, p2: Patch)
    requires KeepsMatch(p1, k) && Covers(p2, p1)
    ensures UpdateWhere(UpdateWhere(rows, k, p1), k, p2) == UpdateWhere(rows, k, p2)
  {
    forall i | 0 <= i < |rows|
      ensures UpdateWhere(UpdateWhere(rows, k, p1), k, p2)[i] == UpdateWhere(rows, k, p2)[i]
    {
      ApplyKeepsMatch(rows[i], p1, k);
      LastWriteWins(rows[i], p1, p2);
    }
  }

  /** The result of `.single()` / `.maybeSingle()`: no row, exactly one, or more
      than one (an error for both). */
  datatype Lookup = NoRow | OneRow(row: Subscription) | ManyRows

  function Select(rows: seq<Subscription>, k: Key): (l: Lookup)
    ensures l.NoRow? <==> CountMatches(rows, k) == 0
    ensures l.OneRow? <==> CountMatches(rows, k) == 1
    ensures l.ManyRows? <==> CountMatches(rows, k) > 1
    ensures l.OneRow? ==> l.row in rows && Matches(l.row, k)
  {
    if rows == [] then NoRow
    else
      var rest := Select(rows[1..], k);
      if !Matches(rows[0], k) then rest
      else if rest.NoRow? then OneRow(rows[0])
      else ManyRows
  }

  /** When `Select` finds a single row, every selected row is that row. */
  lemma {:induction false} OnlyMatch(rows: seq<Subscription>, k: Key, i: int, r: Subscription)
    requires Select(rows, k) == OneRow(r) && 0 <= i < |rows| && Matches(rows[i], k)
    ensures rows[i] == r
  {
    if i > 0 {
      assert rows[1..][i - 1] == rows[i];
      if Matches(rows[0], k) {
        CountZero(rows[1..], k);
      } else {
        OnlyMatch(rows[1..], k, i - 1, r);
      }
    }
  }

  /** The lookup result once every selected row has taken the patch `p`. */
  function Patched(l: Lookup, p: Patch): Lookup {
    match l
    case OneRow(r) => OneRow(Apply(r, p))
    case _ => l
  }

  /** An update that keeps the filter's columns selects the same rows: a single
      row found before is found afterwards, patched. */
  lemma {:induction false} SelectAfterUpdate(rows: seq<Subscription>, k: Key, p: Patch)
    requires KeepsMatch(p, k)
    ensures Select(UpdateWhere(rows, k, p), k) == Patched(Select(rows, k), p)
  {
    if rows != [] {
      var after := UpdateWhere(rows, k, p);
      assert after[1..] == UpdateWhere(rows[1..], k, p);
      ApplyKeepsMatch(rows[0], p, k);
      SelectAfterUpdate(rows[1..], k, p);
    }
  }

  /** `upsert(v, { onConflict: 'user_id' })`: the rows of `user` take the
      payload's columns; when there are none, a new row is appended. */
  function Upserted(rows: seq<Subscription>, user: UserId, v: RowValues, freshId: nat, now: int)
    : (after: seq<Subscription>)
    ensures KeepsOwners(rows, after)
    ensures |after| == |rows| + 1 <==> forall i :: 0 <= i < |rows| ==> rows[i].userId != user
    ensures |after| == |rows| + 1 ==> after[|rows|].userId == user
    ensures |after| <= |rows| + 1
  {
    CountZero(rows, ByUser(user));
    if CountMatches(rows, ByUser(user)) == 0 then rows + [Materialize(freshId, user, v, now)]
    else UpdateWhere(rows, ByUser(user), MergePatch(v))
  }

  /** After an upsert the user has a row, and exactly one when there was at
      most one before. Every row of the user carries the payload; every row of
      another user is as it was. */
  lemma UpsertedSpec(rows: seq<Subscription>, user: UserId, v: RowValues, freshId: nat, now: int)
    ensures var after := Upserted(rows, user, v, freshId, now);
      && CountMatches(after, ByUser(user)) == (if CountMatches(rows, ByUser(user)) == 0 then 1 else CountMatches(rows, ByUser(user)))
      && |rows| <= |after| <= |rows| + 1
      && (forall i :: 0 <= i < |after| && after[i].userId == user ==> Carries(after[i], v))
      && (forall i :: 0 <= i < |rows| && rows[i].userId != user ==> after[i] == rows[i])
  {
    var after := Upserted(rows, user, v, freshId, now);
    if CountMatches(rows, ByUser(user)) == 0 {
      CountZero(rows, ByUser(user));
      CountAppend(rows, Materialize(freshId, user, v, now), ByUser(user));
    } else {
      UpdateKeepsCount(rows, ByUser(user), MergePatch(v), ByUser(user));
    }
  }

  /** Running the same upsert twice leaves the table as one run does, whatever
      the second run's fresh id and clock. */
  lemma UpsertIdempotent(rows: seq<Subscription>, user: UserId, v: RowValues,
                         id1: nat, now1: int, id2: nat, now2: int)
    ensures Upserted(Upserted(rows, user, v, id1, now1), user, v, id2, now2)
         == Upserted(rows, user, v, id1, now1)
  {
    var once := Upserted(rows, user, v, id1, now1);
    UpsertedSpec(rows, user, v, id1, now1);
    if CountMatches(rows, ByUser(user)) == 0 {
      CountZero(rows, ByUser(user));
      var twice := UpdateWhere(once, ByUser(user), MergePatch(v));
      forall i | 0 <= i < |once| ensures twice[i] == once[i] {
        if i == |rows| {
          assert Apply(once[i], MergePatch(v)) == once[i];
        }
      }
    } else {
      UpdateTwiceLastWins(rows, ByUser(user), MergePatch(v), MergePatch(v));
    }
  }

  /** No two rows share a local id. */
  predicate DistinctIds(rows: seq<Subscription>) {
    forall i, j :: 0 <= i < j < |rows| ==> rows[i].id != rows[j].id
  }

  /** No two rows are both selected by the filter `k`. */
  predicate SelectsAtMostOne(rows: seq<Subscription>, k: Key) {
    forall i, j :: 0 <= i < j < |rows| ==> !(Matches(rows[i], k) && Matches(rows[j], k))
  }

  /** A filter that no two rows satisfy together selects at most one row. */
  lemma {:induction false} AtMostOneMatch(rows: seq<Subscription>, k: Key)
    requires SelectsAtMostOne(rows, k)
    ensures CountMatches(rows, k) <= 1
  {
    if rows != [] {
      assert SelectsAtMostOne(rows[1..], k) by {
        forall i, j | 0 <= i < j < |rows[1..]|
          ensures !(Matches(rows[1..][i], k) && Matches(rows[1..][j], k))
        {
          assert rows[1..][i] == rows[i + 1] && rows[1..][j] == rows[j + 1];
        }
      }
      AtMostOneMatch(rows[1..], k);
      if Matches(rows[0], k) {
        forall i | 0 <= i < |rows[1..]| ensures !Matches(rows[1..][i], k) {
          assert rows[1..][i] == rows[i + 1];
        }
        CountZero(rows[1..], k);
      }
    }
  }

  /** With distinct ids, `update(...).eq('id', id)` selects at most one row. */
  lemma AtMostOneById(rows: seq<Subscription>, id: nat)
    requires DistinctIds(rows)
    ensures CountMatches(rows, ById(id)) <= 1
  {
    AtMostOneMatch(rows, ById(id));
  }

  /** The unique key on `user_id` that `upsert(..., { onConflict: 'user_id' })`
      needs: no two rows belong to the same user. */
  predicate UniqueUsers(rows: seq<Subscription>) {
    forall i, j :: 0 <= i < j < |rows| ==> rows[i].userId != rows[j].userId
  }

  /** Under the unique key a user has at most one row. */
  lemma OneRowPerUser(rows: seq<Subscription>, user: UserId)
    requires UniqueUsers(rows)
    ensures CountMatches(rows, ByUser(user)) <= 1
  {
    AtMostOneMatch(rows, ByUser(user));
  }

  /** `insert(v)` under the unique key on `user_id`: refused (none) when the
      user already has a row, otherwise the rows with the new one appended. */
  function Inserted(rows: seq<Subscription>, user: UserId, v: RowValues, freshId: nat, now: int)
    : (r: Option<seq<Subscription>>)
    ensures r.Some? <==> forall i :: 0 <= i < |rows| ==> rows[i].userId != user
  {
    CountZero(rows, ByUser(user));
    if CountMatches(rows, ByUser(user)) == 0 then Some(rows + [Materialize(freshId, user, v, now)])
    else None
  }

  /** An accepted insert keeps every old row in place and gives the user
      exactly one row, the new one, so the unique key still holds; a refused
      one means the user already had a row. */
  lemma InsertedSpec(rows: seq<Subscription>, user: UserId, v: RowValues, freshId: nat, now: int)
    ensures var r := Inserted(rows, user, v, freshId, now);
      && (r.None? ==> CountMatches(rows, ByUser(user)) >= 1)
      && (r.Some? ==>
            && |r.value| == |rows| + 1 && r.value[..|rows|] == rows
            && r.value[|rows|] == Materialize(freshId, user, v, now)
            && CountMatches(r.value, ByUser(user)) == 1)
      && (r.Some? && UniqueUsers(rows) ==> UniqueUsers(r.value))
  {
    CountZero(rows, ByUser(user));
    if CountMatches(rows, ByUser(user)) == 0 {
      CountAppend(rows, Materialize(freshId, user, v, now), ByUser(user));
      assert (rows + [Materialize(freshId, user, v, now)])[..|rows|] == rows;
    }
  }

  /** The table. `nextId` is the id the next inserted row receives. */
  class SubscriptionTable {
    var rows: seq<Subscription>
    var nextId: nat

    ghost predicate Valid()
      reads this
    {
      && DistinctIds(rows)
      && UniqueUsers(rows)
      && forall i :: 0 <= i < |rows| ==> rows[i].id < nextId
    }

    constructor ()
      ensures Valid() && rows == []
    {
      rows := [];
      nextId := 0;
    }

    /** The result of a `select` with filter `k`. */
    function Find(k: Key): Lookup
      reads this
    {
      Select(rows, k)
    }

    /** `.eq('user_id', user).eq('status', 'active').maybeSingle()`. */
    function FindActiveByUser(user: UserId): (l: Lookup)
      reads this
      ensures l.OneRow? ==> l.row in rows && l.row.userId == user && l.row.status == Active
      ensures l.NoRow? <==> forall i :: 0 <= i < |rows| ==> !(rows[i].userId == user && rows[i].status == Active)
      ensures l.OneRow? <==> CountMatches(rows, ActiveOf(user)) == 1
      ensures l.ManyRows? <==> CountMatches(rows, ActiveOf(user)) > 1
    {
      CountZero(rows, ActiveOf(user));
      Select(rows, ActiveOf(user))
    }

    /** `upsert(v, { onConflict: 'user_id' })`; a failed call changes nothing. */
    method UpsertByUser(user: UserId, v: RowValues, now: int, fault: bool) returns (ok: bool)
      requires Valid()
      modifies this
      ensures Valid()
      ensures ok == !fault
      ensures rows == if fault then old(rows) else Upserted(old(rows), user, v, old(nextId), now)
    {
      if fault {
        return false;
      }
      if CountMatches(rows, ByUser(user)) == 0 {
        CountZero(rows, ByUser(user));
        rows := rows + [Materialize(nextId, user, v, now)];
        nextId := nextId + 1;
      } else {
        rows := UpdateWhere(rows, ByUser(user), MergePatch(v));
      }
      ok := true;
    }

    /** `update(p).eq('stripe_subscription_id', subscriptionId)`. */
    method UpdateWhereStripeSubId(subscriptionId: string, p: Patch, fault: bool) returns (ok: bool)
      requires Valid()
      modifies this
      ensures Valid() && nextId == old(nextId)
      ensures ok == !fault
      ensures rows == if fault then old(rows) else UpdateWhere(old(rows), BySubscription(subscriptionId), p)
    {
      if fault {
        return false;
      }
      rows := UpdateWhere(rows, BySubscription(subscriptionId), p);
      ok := true;
    }

    /** `update(p).eq('id', id)`: touches at most the one row with that id. */
    method UpdateById(id: nat, p: Patch, fault: bool) returns (ok: bool)
      requires Valid()
      modifies this
      ensures Valid() && nextId == old(nextId)
      ensures ok == !fault
      ensures CountMatches(old(rows), ById(id)) <= 1
      ensures rows == if fault then old(rows) else UpdateWhere(old(rows), ById(id), p)
    {
      AtMostOneById(rows, id);
      if fault {
        return false;
      }
      rows := UpdateWhere(rows, ById(id), p);
      ok := true;
    }

    /** `insert(v)`: appends a row, unless the unique key on `user_id`
        refuses it because the user already has one; a refused or failed
        call changes nothing. */
    method Insert(user: UserId, v: RowValues, now: int, fault: bool) returns (ok: bool)
      requires Valid()
      modifies this
      ensures Valid()
      ensures ok == (!fault && Inserted(old(rows), user, v, old(nextId), now).Some?)
      ensures rows == if ok then Inserted(old(rows), user, v, old(nextId), now).value else old(rows)
    {
      if fault {
        return false;
      }
      var r := Inserted(rows, user, v, nextId, now);
      if r.None? {
        return false;
      }
      InsertedSpec(rows, user, v, nextId, now);
      rows := r.value;
      nextId := nextId + 1;
      ok := true;
    }
  }
}
