/** The free-trial button: inserts a 14-day free row for the signed-in user. */
module FreeTrial {
  import opened Wrappers
  import opened Subscriptions
  import opened Store
  import opened Auth
  import opened Client

  /** Length of the trial. */
  const TrialDays: int := 14

  /** The inserted payload: plan free, active, from `now` for 14 days, and no
      Stripe ids. */
  function TrialValues(now: int): (v: RowValues)
    ensures v.plan == Free && v.status == Active
    ensures v.startDate == now && v.endDate == v.startDate + TrialDays * DayMs
    ensures v.customerId.None? && v.subscriptionId.None? && v.priceId.None?
  {
    RowValues(Free, Active, now, now + TrialDays * DayMs, None, None, None)
  }

  /** The steps of `handleFreeTrial`: without a user, an error toast; after
      the insert, an error toast when it failed, or a success toast and the
      move to the home page. */
  function TrialSteps(user: Option<User>, insertFailed: bool): (steps: seq<Effect>)
    ensures Navigate("/") in steps <==> user.Some? && !insertFailed
    ensures Toast(Success) in steps <==> user.Some? && !insertFailed
    ensures Toast(Failure) in steps <==> user.None? || insertFailed
    ensures steps[0] == LookUpUser
  {
    if user.None? then [LookUpUser, Toast(Failure)]
    else if insertFailed then [LookUpUser, Toast(Failure)]
    else [LookUpUser, Toast(Success), Navigate("/")]
  }

  /** The button's state: the `isProcessing` flag and what it has done. */
  class FreeTrialButton {
    var isProcessing: bool
    var effects: seq<Effect>

    constructor ()
      ensures !isProcessing && effects == []
    {
      isProcessing := false;
      effects := [];
    }

    /** `handleFreeTrial`: a plain insert, which the unique key on `user_id`
        refuses for a user who already has a row; `isProcessing` is false
        again on every path. */
    method HandleFreeTrial(table: SubscriptionTable, user: Option<User>, writeFault: bool, now: int)
      requires table.Valid()
      modifies this, table
      ensures table.Valid() && !isProcessing
      ensures user.None? ==> effects == old(effects) + TrialSteps(user, false) && table.rows == old(table.rows)
      ensures user.Some? ==>
        var r := Inserted(old(table.rows), user.value.id, TrialValues(now), old(table.nextId), now);
        && effects == old(effects) + TrialSteps(user, writeFault || r.None?)
        && table.rows == if writeFault || r.None? then old(table.rows) else r.value
    {
      isProcessing := true;
      effects := effects + [LookUpUser];
      if user.None? {
        effects := effects + [Toast(Failure)];
        isProcessing := false;
        return;
      }
      var ok := table.Insert(user.value.id, TrialValues(now), now, writeFault);
      if !ok {
        effects := effects + [Toast(Failure)];
      } else {
        effects := effects + [Toast(Success), Navigate("/")];
      }
      isProcessing := false;
    }
  }

  /** The trial is only for a user without any row: one who already has a
      row, even a canceled one, is refused by the unique key. For a user
      without a row the trial row becomes their one active subscription, the
      one the settings page then finds. */
  lemma TrialOnlyForNewUsers(rows: seq<Subscription>, u: UserId, id: nat, now: int)
    ensures Inserted(rows, u, TrialValues(now), id, now).None? <==> CountMatches(rows, ByUser(u)) >= 1
    ensures CountMatches(rows, ByUser(u)) == 0 ==>
      var after := Inserted(rows, u, TrialValues(now), id, now).value;
      && CountMatches(after, ActiveOf(u)) == 1
      && Select(after, ActiveOf(u)) == OneRow(Materialize(id, u, TrialValues(now), now))
  {
    var m := Materialize(id, u, TrialValues(now), now);
    InsertedSpec(rows, u, TrialValues(now), id, now);
    CountZero(rows, ByUser(u));
    if CountMatches(rows, ByUser(u)) == 0 {
      CountZero(rows, ActiveOf(u));
      CountAppend(rows, m, ActiveOf(u));
    }
  }
}
