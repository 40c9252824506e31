/** The `useSubscriptionActions` hook: cancel and upgrade for the row shown on
    the settings page, branching on its plan. */
module SubscriptionActionsHook {
  import opened Wrappers
  import opened Subscriptions
  import opened Store
  import opened Stripe
  import opened Auth
  import opened Client

  /** Some step invokes an edge function. */
  predicate Invokes(steps: seq<Effect>) {
    exists e | e in steps :: e.Invoke?
  }

  /** Some step leaves the current page. */
  predicate Leaves(steps: seq<Effect>) {
    exists e | e in steps :: e.Navigate? || e.Redirect?
  }

  /** The steps of `handleCancel` for row `sub`: a free row is canceled in the
      table directly; a paid one through `cancel-subscription`, whose answer
      `reply` is its `success` flag (`Throws` for an invoke error). */
  function CancelSteps(sub: Subscription, writeFault: bool, reply: Call<bool>): (steps: seq<Effect>)
    ensures Refresh in steps <==> if sub.plan == Free then !writeFault else reply == Returns(true)
    ensures Toast(Success) in steps <==> Refresh in steps
    ensures Toast(Failure) in steps <==> Refresh !in steps
    ensures sub.plan == Free ==> !Invokes(steps)
    ensures sub.plan != Free ==> steps[0] == Invoke(CancelBody(sub.subscriptionId))
    ensures !Leaves(steps) && LookUpUser !in steps
  {
    if sub.plan == Free then
      (if writeFault then [Toast(Failure)] else [Toast(Success), Refresh])
    else
      [Invoke(CancelBody(sub.subscriptionId))] +
      (if reply == Returns(true) then [Toast(Success), Refresh] else [Toast(Failure)])
  }

  /** The table write of `handleCancel`: only a free row is written here, and
      only the row with its id. */
  function CancelWrite(rows: seq<Subscription>, sub: Subscription, writeFault: bool, now: int)
    : (after: seq<Subscription>)
    ensures |after| == |rows| && KeepsOwners(rows, after)
    ensures sub.plan != Free ==> after == rows
    ensures forall i :: 0 <= i < |rows| && rows[i].id != sub.id ==> after[i] == rows[i]
  {
    if sub.plan == Free && !writeFault then UpdateWhere(rows, ById(sub.id), StatusPatch(Canceled, now))
    else rows
  }

  /** Canceling a free trial cancels that one row and leaves every other row,
      including the user's other rows, as it was; canceling a paid plan writes
      nothing from the browser. */
  lemma CancelWriteSpec(rows: seq<Subscription>, sub: Subscription, writeFault: bool, now: int)
    ensures |CancelWrite(rows, sub, writeFault, now)| == |rows|
    ensures forall i :: 0 <= i < |rows| ==>
      CancelWrite(rows, sub, writeFault, now)[i] ==
        if sub.plan == Free && !writeFault && rows[i].id == sub.id
        then rows[i].(status := Canceled, updatedAt := now) else rows[i]
  {
    UpdateWhereSpec(rows, ById(sub.id), StatusPatch(Canceled, now));
  }

  /** The steps of `handleUpgrade` for row `sub`, when `getUser` yields
      `user`, the page's origin is `origin` and `change-subscription`
      answers `reply` (its `sessionUrl`). */
  function UpgradeSteps(sub: Subscription, user: Option<User>, origin: string,
                        reply: Call<Option<string>>): (steps: seq<Effect>)
    ensures sub.plan == Annual ==> steps == [Toast(Info)]
    ensures sub.plan == Annual ==> LookUpUser !in steps && !Invokes(steps) && !Leaves(steps)
    ensures sub.plan != Annual && user.None? ==> steps == [LookUpUser, Toast(Failure)]
    ensures user.None? ==> !Invokes(steps) && !Leaves(steps)
    ensures Navigate("/subscribe") in steps <==> sub.plan == Free && user.Some?
    ensures sub.plan == Monthly && user.Some? ==> Invokes(steps)
    ensures sub.plan != Monthly ==> !Invokes(steps)
    ensures sub.plan == Monthly && user.Some? ==>
      && |steps| == 3
      && steps[1] == Invoke(ChangeBody(sub.subscriptionId, AnnualPrice, user.value.id,
                                       origin + "/subscription/success", origin + "/settings"))
      && steps[2] == if reply.Returns? && Present(reply.value) then Redirect(reply.value.value) else Toast(Failure)
    ensures forall url :: Redirect(url) in steps <==>
      sub.plan == Monthly && user.Some? && reply.Returns? && Present(reply.value) && url == reply.value.value
  {
    match sub.plan
    case Annual => [Toast(Info)]
    case Free => if user.None? then [LookUpUser, Toast(Failure)] else [LookUpUser, Navigate("/subscribe")]
    case Monthly =>
      if user.None? then [LookUpUser, Toast(Failure)]
      else
        var invoke := Invoke(ChangeBody(sub.subscriptionId, AnnualPrice, user.value.id,
                                        origin + "/subscription/success", origin + "/settings"));
        var last := if reply.Returns? && Present(reply.value) then Redirect(reply.value.value) else Toast(Failure);
        var taken := [LookUpUser, invoke, last];
        assert taken[1] in taken;
        taken
  }

  /** The hook's state for one row: the `isLoading` flag and what it has done. */
  class ActionsHook {
    const subscription: Subscription
    var isLoading: bool
    var effects: seq<Effect>

    constructor (sub: Subscription)
      ensures subscription == sub && !isLoading && effects == []
    {
      subscription := sub;
      isLoading := false;
      effects := [];
    }

    /** `handleCancel`; `isLoading` is false again on every path. */
    method HandleCancel(table: SubscriptionTable, writeFault: bool, reply: Call<bool>, now: int)
      requires table.Valid()
      modifies this, table
      ensures table.Valid()
      ensures !isLoading
      ensures effects == old(effects) + CancelSteps(subscription, writeFault, reply)
      ensures table.rows == CancelWrite(old(table.rows), subscription, writeFault, now)
    {
      isLoading := true;
      if subscription.plan == Free {
        var ok := table.UpdateById(subscription.id, StatusPatch(Canceled, now), writeFault);
        if !ok {
          effects := effects + [Toast(Failure)];
        } else {
          effects := effects + [Toast(Success), Refresh];
        }
      } else {
        effects := effects + [Invoke(CancelBody(subscription.subscriptionId))];
        if reply == Returns(true) {
          effects := effects + [Toast(Success), Refresh];
        } else {
          effects := effects + [Toast(Failure)];
        }
      }
      isLoading := false;
    }

    /** `handleUpgrade`; `isLoading` is false again on every path. */
    method HandleUpgrade(user: Option<User>, origin: string, reply: Call<Option<string>>)
      modifies this
      ensures !isLoading
      ensures effects == old(effects) + UpgradeSteps(subscription, user, origin, reply)
    {
      isLoading := true;
      if subscription.plan == Annual {
        effects := effects + [Toast(Info)];
        isLoading := false;
        return;
      }
      effects := effects + [LookUpUser];
      if user.None? {
        effects := effects + [Toast(Failure)];
      } else if subscription.plan == Free {
        effects := effects + [Navigate("/subscribe")];
      } else {
        effects := effects + [Invoke(ChangeBody(subscription.subscriptionId, AnnualPrice, user.value.id,
                                                origin + "/subscription/success", origin + "/settings"))];
        if reply.Returns? && Present(reply.value) {
          effects := effects + [Redirect(reply.value.value)];
        } else {
          effects := effects + [Toast(Failure)];
        }
      }
      isLoading := false;
    }
  }
}
