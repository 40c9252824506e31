/** The `verify-checkout-session` edge function: after a paid checkout the
    client asks it to record the subscription for the signed-in user. */
module VerifyCheckoutSession {
  import opened Wrappers
  import opened Subscriptions
  import opened Store
  import opened Stripe
  import opened Auth
  import opened StripeWebhooks

  /** What `String(obj)` gives for a plain object. */
  const ObjectString: string := "[object Object]"

  /** How far the guards let a request through. */
  datatype Gate = Deny(code: int) | Admit(user: User, session: CheckoutSession)

  /** The guard chain: 401 without a caller, 400 without a session id, 500
      when the retrieval throws, 400 when there is no session or it is not
      paid, 403 when the session was opened for another user. */
  function Screen(caller: Option<User>, sessionId: Option<string>,
                  session: Call<Option<CheckoutSession>>): (g: Gate)
    ensures g.Admit? <==>
      && caller.Some? && Present(sessionId) && session.Returns? && session.value.Some?
      && session.value.value.paymentStatus == "paid"
      && session.value.value.metadataUserId == Some(caller.value.id)
    ensures g.Admit? ==> g.user == caller.value && g.session == session.value.value
    ensures g.Deny? ==> g.code in {400, 401, 403, 500}
    ensures g == Deny(401) <==> caller.None?
    ensures g == Deny(403) <==>
      && caller.Some? && Present(sessionId) && session.Returns? && session.value.Some?
      && session.value.value.paymentStatus == "paid"
      && session.value.value.metadataUserId != Some(caller.value.id)
    ensures g == Deny(500) <==> caller.Some? && Present(sessionId) && session.Throws?
  {
    if caller.None? then Deny(401)
    else if !Present(sessionId) then Deny(400)
    else if session.Throws? then Deny(500)
    else if session.value.None? then Deny(400)
    else if session.value.value.paymentStatus != "paid" then Deny(400)
    else if session.value.value.metadataUserId != Some(caller.value.id) then Deny(403)
    else Admit(caller.value, session.value.value)
  }

  /** The plan recorded: the session's `plan_type`, monthly when it has none. */
  function SessionPlan(s: CheckoutSession): (p: PlanType)
    ensures s.metadataPlan.Some? ==> p == s.metadataPlan.value
    ensures s.metadataPlan.None? ==> p == Monthly
  {
    s.metadataPlan.GetOr(Monthly)
  }

  /** End of the first period: 365 days after `now` for annual, 30 otherwise. */
  function PeriodEnd(plan: PlanType, now: int): (end: int)
    ensures end - now == (if plan == Annual then 365 else 30) * DayMs
    ensures end > now
  {
    if plan == Annual then now + 365 * DayMs else now + 30 * DayMs
  }

  /** The price id of the session's subscription, or the empty string. */
  function SessionPrice(s: CheckoutSession): string {
    if s.subscription.Some? && s.subscription.value.priceId.Some? then s.subscription.value.priceId.value
    else ""
  }

  /** The upsert payload AS WRITTEN: the expanded subscription and customer
      are objects, so converting them to strings gives "[object Object]"
      (the empty string when the session has none). */
  function VerifyValuesAsWritten(s: CheckoutSession, now: int): (v: RowValues)
    ensures v.(customerId := None, subscriptionId := None)
         == VerifyValues(s, now).(customerId := None, subscriptionId := None)
    ensures s.customer.Some? ==> v.customerId == Some(ObjectString)
    ensures s.subscription.Some? ==> v.subscriptionId == Some(ObjectString)
  {
    var plan := SessionPlan(s);
    RowValues(plan, Active, now, PeriodEnd(plan, now),
              Some(if s.customer.Some? then ObjectString else ""),
              Some(if s.subscription.Some? then ObjectString else ""),
              Some(SessionPrice(s)))
  }

  /** The upsert payload as intended: the ids of the expanded objects. */
  function VerifyValues(s: CheckoutSession, now: int): (v: RowValues)
    ensures v.status == Active && v.startDate == now && v.plan == SessionPlan(s)
    ensures v.endDate == PeriodEnd(v.plan, now)
    ensures v.customerId == Some(if s.customer.Some? then s.customer.value.id else "")
    ensures v.subscriptionId == Some(if s.subscription.Some? then s.subscription.value.id else "")
    ensures v.priceId == Some(SessionPrice(s))
  {
    var plan := SessionPlan(s);
    RowValues(plan, Active, now, PeriodEnd(plan, now),
              Some(if s.customer.Some? then s.customer.value.id else ""),
              Some(if s.subscription.Some? then s.subscription.value.id else ""),
              Some(SessionPrice(s)))
  }

  /** The whole handler. Returns the status code, the plan it reports on
      success, and the Stripe calls made. */
  method HandleVerify(table: SubscriptionTable, authHeader: Option<string>, resolved: Option<User>,
                      sessionId: Option<string>, session: Call<Option<CheckoutSession>>,
                      writeFault: bool, now: int)
      returns (code: int, plan: Option<PlanType>, calls: seq<ProviderCall>)
    requires table.Valid()
    modifies table
    ensures table.Valid()
    ensures var caller := Authenticate(authHeader, resolved);
      calls == if caller.Some? && Present(sessionId) then [RetrieveCheckoutSession(sessionId.value)] else []
    ensures var g := Screen(Authenticate(authHeader, resolved), sessionId, session);
      if g.Deny? then code == g.code && plan.None? && table.rows == old(table.rows)
      else if writeFault then code == 500 && plan.None? && table.rows == old(table.rows)
      else code == 200 && plan == Some(SessionPlan(g.session))
           && table.rows == Upserted(old(table.rows), g.user.id, VerifyValues(g.session, now), old(table.nextId), now)
  {
    var caller := Authenticate(authHeader, resolved);
    calls := [];
    if caller.None? {
      return 401, None, calls;
    }
    if !Present(sessionId) {
      return 400, None, calls;
    }
    calls := [RetrieveCheckoutSession(sessionId.value)];
    var g := Screen(caller, sessionId, session);
    if g.Deny? {
      return g.code, None, calls;
    }
    var p := SessionPlan(g.session);
    var ok := table.UpsertByUser(g.user.id, VerifyValues(g.session, now), now, writeFault);
    if !ok {
      return 500, None, calls;
    }
    code, plan := 200, Some(p);
  }

  /** After a successful verification every row of the user is active with the
      session's plan and a period of 30 or 365 days from `now`; a user with at
      most one row before has exactly one after. */
  lemma VerifiedRowActive(rows: seq<Subscription>, s: CheckoutSession, u: UserId, freshId: nat, now: int)
    ensures var after := Upserted(rows, u, VerifyValues(s, now), freshId, now);
      && CountMatches(after, ByUser(u)) >= 1
      && (CountMatches(rows, ByUser(u)) <= 1 ==> CountMatches(after, ByUser(u)) == 1)
      && forall i :: 0 <= i < |after| && after[i].userId == u ==>
           && after[i].status == Active && after[i].plan == SessionPlan(s)
           && after[i].startDate == now
           && after[i].endDate - now == (if SessionPlan(s) == Annual then 365 else 30) * DayMs
  {
    UpsertedSpec(rows, u, VerifyValues(s, now), freshId, now);
  }

  /** Verifying the same session twice leaves the user with one row, holding
      the dates of the second verification. */
  lemma VerifyTwiceKeepsOneRow(rows: seq<Subscription>, s: CheckoutSession, u: UserId,
                               id1: nat, id2: nat, now1: int, now2: int)
    requires CountMatches(rows, ByUser(u)) <= 1
    ensures var once := Upserted(rows, u, VerifyValues(s, now1), id1, now1);
      var twice := Upserted(once, u, VerifyValues(s, now2), id2, now2);
      && CountMatches(twice, ByUser(u)) == 1
      && |twice| == |once|
      && forall i :: 0 <= i < |twice| && twice[i].userId == u ==>
           twice[i].startDate == now2 && twice[i].endDate == PeriodEnd(SessionPlan(s), now2)
  {
    var once := Upserted(rows, u, VerifyValues(s, now1), id1, now1);
    UpsertedSpec(rows, u, VerifyValues(s, now1), id1, now1);
    UpsertedSpec(once, u, VerifyValues(s, now2), id2, now2);
  }

  /** As written, no later `invoice.payment_failed` for a real subscription id
      reaches the row a verification wrote: its `stripe_subscription_id` is
      "[object Object]" or empty. */
  lemma VerifyAsWrittenUnreachable(rows: seq<Subscription>, s: CheckoutSession, u: UserId,
                                   freshId: nat, now: int, invoice: EventObject, later: int)
    requires Present(invoice.subscription) && invoice.subscription.value != ObjectString
    ensures var after := Upserted(rows, u, VerifyValuesAsWritten(s, now), freshId, now);
      var failed := FailedEffect(after, invoice, false, later);
      |failed| == |after| &&
      forall i :: 0 <= i < |after| && after[i].userId == u ==> failed[i] == after[i]
  {
    var v := VerifyValuesAsWritten(s, now);
    var after := Upserted(rows, u, v, freshId, now);
    UpsertedSpec(rows, u, v, freshId, now);
    UpdateWhereSpec(after, BySubscription(invoice.subscription.value), StatusPatch(PastDue, later));
  }

  /** With the ids written, `invoice.payment_failed` for the session's
      subscription marks the user's verified row past_due. */
  lemma VerifyReachable(rows: seq<Subscription>, s: CheckoutSession, u: UserId,
                        freshId: nat, now: int, invoice: EventObject, later: int)
    requires s.subscription.Some? && invoice.subscription == Some(s.subscription.value.id)
    requires Present(invoice.subscription)
    ensures var after := Upserted(rows, u, VerifyValues(s, now), freshId, now);
      var failed := FailedEffect(after, invoice, false, later);
      |failed| == |after| &&
      forall i :: 0 <= i < |after| && after[i].userId == u ==> failed[i].status == PastDue
  {
    var v := VerifyValues(s, now);
    var after := Upserted(rows, u, v, freshId, now);
    UpsertedSpec(rows, u, v, freshId, now);
    UpdateWhereSpec(after, BySubscription(invoice.subscription.value), StatusPatch(PastDue, later));
  }

  /** User U1 pays for subscription sub_1 on an empty table; the failed
      renewal of sub_1 leaves the row written as is active and marks the one
      written with ids past_due. */
  lemma VerifyFindingWitness()
    ensures var s := CheckoutSession("cs_1", "paid", Some("U1"), Some(Monthly),
                                     Some(Customer("cus_1", map[])),
                                     Some(StripeSubscription("sub_1", "active", Some(MonthlyPrice), 0, 2592000)));
      var invoice := EventObject("in_1", "cus_1", "", None, 0, 0, Some("sub_1"));
      && FailedEffect(Upserted([], "U1", VerifyValuesAsWritten(s, 0), 0, 0), invoice, false, 1)[0].status == Active
      && FailedEffect(Upserted([], "U1", VerifyValues(s, 0), 0, 0), invoice, false, 1)[0].status == PastDue
  {
    var s := CheckoutSession("cs_1", "paid", Some("U1"), Some(Monthly),
                             Some(Customer("cus_1", map[])),
                             Some(StripeSubscription("sub_1", "active", Some(MonthlyPrice), 0, 2592000)));
    var invoice := EventObject("in_1", "cus_1", "", None, 0, 0, Some("sub_1"));
    VerifyAsWrittenUnreachable([], s, "U1", 0, 0, invoice, 1);
    VerifyReachable([], s, "U1", 0, 0, invoice, 1);
    CountZero([], ByUser("U1"));
  }
}
