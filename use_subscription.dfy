/** The `useSubscription` query: the signed-in user's active subscription. */
module UseSubscription {
  import opened Wrappers
  import opened Subscriptions
  import opened Store
  import opened Auth

  /** What the query function yields: null after sending a signed-out visitor
      to /auth, the thrown query error, or the row (null when none). */
  datatype QueryResult = SignedOut | Failed | Loaded(row: Option<Subscription>)

  /** The query function. `fault` is an error from the select; more than one
      active row is an error of `maybeSingle` too. */
  function QuerySubscription(user: Option<User>, rows: seq<Subscription>, fault: bool): (q: QueryResult)
    ensures q == SignedOut <==> user.None?
    ensures q == Failed <==> user.Some? && (fault || CountMatches(rows, ActiveOf(user.value.id)) > 1)
    ensures q.Loaded? && q.row.Some? ==>
      q.row.value in rows && q.row.value.userId == user.value.id && q.row.value.status == Active
    ensures q.Loaded? && q.row.None? <==>
      user.Some? && !fault && forall i :: 0 <= i < |rows| ==> !(rows[i].userId == user.value.id && rows[i].status == Active)
  {
    if user.None? then SignedOut
    else if fault then Failed
    else
      CountZero(rows, ActiveOf(user.value.id));
      match Select(rows, ActiveOf(user.value.id))
      case NoRow => Loaded(None)
      case OneRow(r) => Loaded(Some(r))
      case ManyRows => Failed
  }

  /** The query reads what the table's `FindActiveByUser` finds. */
  lemma QueryMatchesTable(table: SubscriptionTable, user: User)
    ensures QuerySubscription(Some(user), table.rows, false) ==
      match table.FindActiveByUser(user.id)
      case NoRow => Loaded(None)
      case OneRow(r) => Loaded(Some(r))
      case ManyRows => Failed
  {
  }
}
