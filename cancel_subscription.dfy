/** The `cancel-subscription` edge function: the owner of a paid subscription
    asks Stripe to cancel it at period end and marks it canceled locally. */
module CancelSubscription {
  import opened Wrappers
  import opened Subscriptions
  import opened Store
  import opened Stripe
  import opened Auth

  /** How far the guards let a request through. */
  datatype Gate = Deny(code: int) | Admit(user: User, subscriptionId: string, row: Subscription)

  /** The guard chain: 401 without a caller, 400 without a subscription id,
      403 unless `.single()` on the caller's rows with that Stripe id finds
      exactly one row without error. */
  function Screen(caller: Option<User>, subscriptionId: Option<string>,
                  rows: seq<Subscription>, lookupFault: bool): (g: Gate)
    ensures g == Deny(401) <==> caller.None?
    ensures g == Deny(400) <==> caller.Some? && !Present(subscriptionId)
    ensures g.Deny? ==> g.code in {400, 401, 403}
    ensures g.Admit? <==>
      && caller.Some? && Present(subscriptionId) && !lookupFault
      && CountMatches(rows, OwnedBy(subscriptionId.value, caller.value.id)) == 1
    ensures g.Admit? ==>
      && g.user == caller.value && Some(g.subscriptionId) == subscriptionId
      && g.row in rows && g.row.userId == g.user.id && g.row.subscriptionId == subscriptionId
  {
    if caller.None? then Deny(401)
    else if !Present(subscriptionId) then Deny(400)
    else if lookupFault then Deny(403)
    else match Select(rows, OwnedBy(subscriptionId.value, caller.value.id))
      case OneRow(r) => Admit(caller.value, subscriptionId.value, r)
      case _ => Deny(403)
  }

  /** The local write: every row with that Stripe id becomes canceled. */
  function CanceledRows(rows: seq<Subscription>, subscriptionId: string, now: int): (after: seq<Subscription>)
    ensures |after| == |rows| && KeepsOwners(rows, after)
    ensures forall i :: 0 <= i < |rows| ==>
      after[i].status == (if rows[i].subscriptionId == Some(subscriptionId) then Canceled else rows[i].status)
    ensures forall i :: 0 <= i < |rows| ==> after[i].endDate == rows[i].endDate
  {
    UpdateWhere(rows, BySubscription(subscriptionId), StatusPatch(Canceled, now))
  }

  /** Canceling touches only the rows of that Stripe subscription; they become
      canceled and keep their plan, start and end dates and Stripe ids, so the
      period already paid for is still recorded. */
  lemma CanceledRowsSpec(rows: seq<Subscription>, subscriptionId: string, now: int)
    ensures var after := CanceledRows(rows, subscriptionId, now);
      && |after| == |rows|
      && forall i :: 0 <= i < |rows| ==>
        if rows[i].subscriptionId == Some(subscriptionId) then
          && after[i].status == Canceled && after[i].updatedAt == now
          && after[i] == rows[i].(status := Canceled, updatedAt := now)
        else after[i] == rows[i]
  {
    UpdateWhereSpec(rows, BySubscription(subscriptionId), StatusPatch(Canceled, now));
  }

  /** After a cancel the subscription has no active row left, and the rows
      other subscriptions hold are counted as before under any filter that
      ignores status. */
  lemma CanceledNotActive(rows: seq<Subscription>, subscriptionId: string, now: int, u: UserId)
    ensures CountMatches(CanceledRows(rows, subscriptionId, now), ByUser(u)) == CountMatches(rows, ByUser(u))
    ensures CountMatches(CanceledRows(rows, subscriptionId, now), BySubscription(subscriptionId))
         == CountMatches(rows, BySubscription(subscriptionId))
    ensures forall i :: 0 <= i < |rows| && rows[i].subscriptionId == Some(subscriptionId) ==>
      !Matches(CanceledRows(rows, subscriptionId, now)[i], ActiveOf(u))
  {
    var p := StatusPatch(Canceled, now);
    UpdateWhereSpec(rows, BySubscription(subscriptionId), p);
    UpdateKeepsCount(rows, BySubscription(subscriptionId), p, ByUser(u));
    UpdateKeepsCount(rows, BySubscription(subscriptionId), p, BySubscription(subscriptionId));
  }

  /** The whole handler. `lookupFault` is an error from the ownership query,
      `canceled` Stripe's answer (the subscription's `cancel_at`, in seconds),
      `writeFault` an error from the local update, which is logged and ignored.
      Returns the status code, `cancelAt` in milliseconds, and the Stripe
      calls made. */
  method HandleCancel(table: SubscriptionTable, authHeader: Option<string>, resolved: Option<User>,
                      subscriptionId: Option<string>, lookupFault: bool, canceled: Call<int>,
                      writeFault: bool, now: int)
      returns (code: int, cancelAt: Option<int>, calls: seq<ProviderCall>)
    requires table.Valid()
    modifies table
    ensures table.Valid()
    ensures var g := Screen(Authenticate(authHeader, resolved), subscriptionId, old(table.rows), lookupFault);
      if g.Deny? then
        code == g.code && cancelAt.None? && calls == [] && table.rows == old(table.rows)
      else
        && calls == [CancelAtPeriodEnd(g.subscriptionId)]
        && if canceled.Throws? then
             code == 500 && cancelAt.None? && table.rows == old(table.rows)
           else
             && code == 200 && cancelAt == Some(canceled.value * 1000)
             && table.rows == if writeFault then old(table.rows)
                              else CanceledRows(old(table.rows), g.subscriptionId, now)
  {
    var g := Screen(Authenticate(authHeader, resolved), subscriptionId, table.rows, lookupFault);
    if g.Deny? {
      return g.code, None, [];
    }
    calls := [CancelAtPeriodEnd(g.subscriptionId)];
    if canceled.Throws? {
      return 500, None, calls;
    }
    var _ := table.UpdateWhereStripeSubId(g.subscriptionId, StatusPatch(Canceled, now), writeFault);
    code, cancelAt := 200, Some(canceled.value * 1000);
  }
}
