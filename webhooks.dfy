/** The `stripe-webhooks` edge function: signature check, dispatch on the
    event type, and the five transitions it applies to the subscriptions table. */
module StripeWebhooks {
  import opened Wrappers
  import opened Seqs
  import opened Subscriptions
  import opened Store
  import opened Stripe

  /** `mapStripeStatus`: total; any status it does not list maps to active. */
  function MapStripeStatus(s: string): (r: Status)
    ensures r == Canceled <==> s == "canceled" || s == "incomplete_expired"
    ensures r == PastDue <==> s == "past_due" || s == "incomplete" || s == "unpaid"
    ensures r == Active <==> s !in {"canceled", "incomplete_expired", "past_due", "incomplete", "unpaid"}
  {
    match s
    case "active" => Active
    case "trialing" => Active
    case "canceled" => Canceled
    case "incomplete_expired" => Canceled
    case "past_due" => PastDue
    case "incomplete" => PastDue
    case "unpaid" => PastDue
    case _ => Active
  }

  /** The plan `subscription.created` records: annual when the price id
      contains "annual", monthly otherwise. */
  function PlanForCreated(priceId: Option<string>): (r: PlanType)
    ensures r == Annual <==> priceId.Some? && Contains(priceId.value, "annual")
    ensures r != Free
  {
    if priceId.Some? && Contains(priceId.value, "annual") then Annual else Monthly
  }

  /** The plan `subscription.updated` records, starting from the row's plan. */
  function PlanForUpdated(current: PlanType, priceId: Option<string>): (p: PlanType)
    ensures priceId.None? ==> p == current
    ensures priceId.Some? && Contains(priceId.value, "annual") ==> p == Annual
    ensures p == Free ==> current == Free
  {
    if priceId.Some? && Contains(priceId.value, "annual") then Annual
    else if priceId.Some? && Contains(priceId.value, "monthly") then Monthly
    else current
  }

  /** Neither real price id contains "annual" or "monthly". */
  lemma RealPricesNameNoPlan()
    ensures !Contains(MonthlyPrice, "annual") && !Contains(MonthlyPrice, "monthly")
    ensures !Contains(AnnualPrice, "annual") && !Contains(AnnualPrice, "monthly")
  {
    MissingCharNotContained(MonthlyPrice, "annual", 'u');
    MissingCharNotContained(AnnualPrice, "annual", 'u');
    MissingCharNotContained(MonthlyPrice, "monthly", 'm');
    MissingCharNotContained(AnnualPrice, "monthly", 'm');
  }

  /** With the real price ids, `subscription.created` always records monthly,
      also for the annual price. */
  lemma CreatedPlanIsMonthlyForRealPrices(price: string)
    requires price == MonthlyPrice || price == AnnualPrice
    ensures PlanForCreated(Some(price)) == Monthly
  {
    RealPricesNameNoPlan();
  }

  /** With the real price ids, `subscription.updated` never changes the plan. */
  lemma UpdatedPlanUnchangedForRealPrices(current: PlanType, price: string)
    requires price == MonthlyPrice || price == AnnualPrice
    ensures PlanForUpdated(current, Some(price)) == current
  {
    RealPricesNameNoPlan();
  }

  /** The handler an event type runs. */
  datatype Handler =
    | OnSubscriptionCreated
    | OnSubscriptionUpdated
    | OnSubscriptionDeleted
    | OnPaymentSucceeded
    | OnPaymentFailed
    | OnlyLogged

  const KnownEventTypes: set<string> := {
    "customer.subscription.created", "customer.subscription.updated",
    "customer.subscription.deleted", "invoice.payment_succeeded", "invoice.payment_failed" }

  /** The `switch (event.type)`: each known type runs its own handler; any
      other type is only logged. */
  function Dispatch(kind: string): (h: Handler)
    ensures h == OnSubscriptionCreated <==> kind == "customer.subscription.created"
    ensures h == OnSubscriptionUpdated <==> kind == "customer.subscription.updated"
    ensures h == OnSubscriptionDeleted <==> kind == "customer.subscription.deleted"
    ensures h == OnPaymentSucceeded <==> kind == "invoice.payment_succeeded"
    ensures h == OnPaymentFailed <==> kind == "invoice.payment_failed"
    ensures h == OnlyLogged <==> kind !in KnownEventTypes
  {
    match kind
    case "customer.subscription.created" => OnSubscriptionCreated
    case "customer.subscription.updated" => OnSubscriptionUpdated
    case "customer.subscription.deleted" => OnSubscriptionDeleted
    case "invoice.payment_succeeded" => OnPaymentSucceeded
    case "invoice.payment_failed" => OnPaymentFailed
    case _ => OnlyLogged
  }

  /** The user id `handleSubscriptionCreated` obtains AS WRITTEN: it
      destructures `data` from what `customers.retrieve` resolves to, but that
      is the customer object itself, which has no `data` property, so the
      user id is always undefined. */
  function CreatedUserIdAsWritten(c: Customer): (u: Option<string>)
    ensures !Present(u)
    ensures CreatedUserId(c).Some? ==> u != CreatedUserId(c)
  {
    None
  }

  /** The user id the handler evidently means to read: the customer's
      `metadata.supabase_user_id`, which create-checkout-session sets. */
  function CreatedUserId(c: Customer): (u: Option<string>)
    ensures u.Some? <==> "supabase_user_id" in c.metadata
    ensures u.Some? ==> u.value == c.metadata["supabase_user_id"]
  {
    if "supabase_user_id" in c.metadata then Some(c.metadata["supabase_user_id"]) else None
  }

  /** The user id, when the customer lookup did not throw. */
  function CustomerUserId(customer: Call<Customer>): Option<string> {
    if customer.Throws? then None else CreatedUserId(customer.value)
  }

  /** The columns `subscription.created` upserts. Stripe periods are in
      seconds; the table holds milliseconds. */
  function CreatedValues(sub: EventObject): RowValues {
    RowValues(PlanForCreated(sub.priceId), MapStripeStatus(sub.status),
              sub.periodStart * 1000, sub.periodEnd * 1000,
              Some(sub.customer), Some(sub.id), sub.priceId)
  }

  /** `subscription.created`: upsert the subscription's columns for the
      customer's user, when there is one. No row is lost or changes owner,
      rows of other users stay as they were, and a row added belongs to
      that user. */
  function CreatedEffect(rows: seq<Subscription>, sub: EventObject, userId: Option<string>,
                         fault: bool, freshId: nat, now: int): (after: seq<Subscription>)
    ensures KeepsOwners(rows, after) && |after| <= |rows| + 1
    ensures forall i :: 0 <= i < |rows| && !(Present(userId) && !fault && rows[i].userId == userId.value) ==>
      after[i] == rows[i]
    ensures |after| > |rows| ==> Present(userId) && !fault && after[|rows|].userId == userId.value
  {
    if !Present(userId) || fault then rows
    else
      UpsertedSpec(rows, userId.value, CreatedValues(sub), freshId, now);
      Upserted(rows, userId.value, CreatedValues(sub), freshId, now)
  }

  function UpdatedPatch(current: PlanType, sub: EventObject, now: int): Patch {
    Patch(Some(PlanForUpdated(current, sub.priceId)), Some(MapStripeStatus(sub.status)),
          Some(sub.periodStart * 1000), Some(sub.periodEnd * 1000),
          None, None, sub.priceId, Some(now))
  }

  /** `maybeSingle` fails on several rows and gives null on none: only a single
      matching row is updated, from its own plan. */
  function UpdatedEffect(rows: seq<Subscription>, sub: EventObject,
                         fetchFault: bool, updateFault: bool, now: int): (after: seq<Subscription>)
    ensures |after| == |rows| && KeepsOwners(rows, after)
    ensures forall i :: 0 <= i < |rows| && rows[i].subscriptionId != Some(sub.id) ==> after[i] == rows[i]
  {
    if fetchFault || updateFault then rows
    else match Select(rows, BySubscription(sub.id))
      case OneRow(r) => UpdateWhere(rows, BySubscription(sub.id), UpdatedPatch(r.plan, sub, now))
      case _ => rows
  }

  /** `subscription.deleted`: the subscription's rows become canceled and
      keep their plan and period; every other column of every row stays. */
  function DeletedEffect(rows: seq<Subscription>, sub: EventObject, fault: bool, now: int)
    : (after: seq<Subscription>)
    ensures |after| == |rows| && KeepsOwners(rows, after)
    ensures forall i :: 0 <= i < |rows| ==>
      after[i].status == (if !fault && rows[i].subscriptionId == Some(sub.id) then Canceled else rows[i].status)
    ensures forall i :: 0 <= i < |rows| ==> after[i].plan == rows[i].plan && after[i].endDate == rows[i].endDate
  {
    if fault then rows else UpdateWhere(rows, BySubscription(sub.id), StatusPatch(Canceled, now))
  }

  function SucceededPatch(periodEnd: int, now: int): Patch {
    Patch(None, Some(Active), None, Some(periodEnd * 1000), None, None, None, Some(now))
  }

  /** `invoice.payment_succeeded`: the invoice's subscription becomes active
      until the retrieved period end; no row changes plan or goes to any
      status but active, and rows of other subscriptions stay. */
  function SucceededEffect(rows: seq<Subscription>, invoice: EventObject,
                           retrieved: Call<StripeSubscription>, fault: bool, now: int)
    : (after: seq<Subscription>)
    ensures |after| == |rows| && KeepsOwners(rows, after)
    ensures forall i :: 0 <= i < |rows| && (!Present(invoice.subscription) || rows[i].subscriptionId != invoice.subscription) ==>
      after[i] == rows[i]
    ensures forall i :: 0 <= i < |rows| ==>
      after[i].plan == rows[i].plan && (after[i].status == rows[i].status || after[i].status == Active)
  {
    if !Present(invoice.subscription) || retrieved.Throws? || fault then rows
    else UpdateWhere(rows, BySubscription(invoice.subscription.value),
                     SucceededPatch(retrieved.value.periodEnd, now))
  }

  /** `invoice.payment_failed`: the invoice's subscription goes past_due and
      keeps its plan and period. */
  function FailedEffect(rows: seq<Subscription>, invoice: EventObject, fault: bool, now: int)
    : (after: seq<Subscription>)
    ensures |after| == |rows| && KeepsOwners(rows, after)
    ensures forall i :: 0 <= i < |rows| ==>
      after[i].status == (if !fault && Present(invoice.subscription) && rows[i].subscriptionId == invoice.subscription
                          then PastDue else rows[i].status)
    ensures forall i :: 0 <= i < |rows| ==> after[i].plan == rows[i].plan && after[i].endDate == rows[i].endDate
  {
    if !Present(invoice.subscription) || fault then rows
    else UpdateWhere(rows, BySubscription(invoice.subscription.value), StatusPatch(PastDue, now))
  }

  /** What a verified event does to the table. `fetchFault` is an error of the
      read in `subscription.updated`; `writeFault` an error of the write. */
  function EventEffect(rows: seq<Subscription>, e: Event, customer: Call<Customer>,
                       retrieved: Call<StripeSubscription>, fetchFault: bool, writeFault: bool,
                       freshId: nat, now: int): (after: seq<Subscription>)
    ensures KeepsOwners(rows, after) && |after| <= |rows| + 1
    ensures Dispatch(e.kind) != OnSubscriptionCreated ==> |after| == |rows|
    ensures Dispatch(e.kind) == OnlyLogged ==> after == rows
  {
    match Dispatch(e.kind)
    case OnSubscriptionCreated => CreatedEffect(rows, e.payload, CustomerUserId(customer), writeFault, freshId, now)
    case OnSubscriptionUpdated => UpdatedEffect(rows, e.payload, fetchFault, writeFault, now)
    case OnSubscriptionDeleted => DeletedEffect(rows, e.payload, writeFault, now)
    case OnPaymentSucceeded => SucceededEffect(rows, e.payload, retrieved, writeFault, now)
    case OnPaymentFailed => FailedEffect(rows, e.payload, writeFault, now)
    case OnlyLogged => rows
  }

  /** The Stripe calls a verified event makes. */
  function EventCalls(e: Event): seq<ProviderCall> {
    match Dispatch(e.kind)
    case OnSubscriptionCreated => [RetrieveCustomer(e.payload.customer)]
    case OnPaymentSucceeded =>
      if Present(e.payload.subscription) then [RetrieveSubscription(e.payload.subscription.value)] else []
    case _ => []
  }

  /** `after` is row `r` once `subscription.updated` for `sub` reached it. */
  predicate UpdatedFrom(r: Subscription, after: Subscription, sub: EventObject) {
    && after.plan == PlanForUpdated(r.plan, sub.priceId)
    && after.status == MapStripeStatus(sub.status)
    && after.startDate == sub.periodStart * 1000
    && after.endDate == sub.periodEnd * 1000
    && after.priceId == (if sub.priceId.Some? then sub.priceId else r.priceId)
    && after.id == r.id && after.userId == r.userId
    && after.customerId == r.customerId && after.subscriptionId == r.subscriptionId
  }

  /** `subscription.updated` changes nothing unless exactly one row holds the
      subscription id. When one does, that row takes the plan derived from
      its own, the mapped status, the period in milliseconds and the price id;
      every other row is unchanged. */
  lemma UpdatedEffectSpec(rows: seq<Subscription>, sub: EventObject, now: int)
    ensures var after := UpdatedEffect(rows, sub, false, false, now);
      && |after| == |rows|
      && (CountMatches(rows, BySubscription(sub.id)) != 1 ==> after == rows)
      && (CountMatches(rows, BySubscription(sub.id)) == 1 ==>
            forall i :: 0 <= i < |rows| ==>
              if rows[i].subscriptionId == Some(sub.id) then UpdatedFrom(rows[i], after[i], sub)
              else after[i] == rows[i])
  {
    var k := BySubscription(sub.id);
    var after := UpdatedEffect(rows, sub, false, false, now);
    match Select(rows, k)
    case OneRow(r) =>
      var p := UpdatedPatch(r.plan, sub, now);
      assert after == UpdateWhere(rows, k, p);
      forall i | 0 <= i < |rows|
        ensures if rows[i].subscriptionId == Some(sub.id) then UpdatedFrom(rows[i], after[i], sub)
                else after[i] == rows[i]
      {
        if Matches(rows[i], k) {
          OnlyMatch(rows, k, i, r);
          assert after[i] == Apply(r, p);
        }
      }
    case NoRow =>
      CountZero(rows, k);
    case ManyRows =>
  }

  /** The upgrade to the annual price (what the action hook asks for) is
      never recorded: `subscription.updated` with that price leaves every
      row's plan as it was. */
  lemma AnnualPriceUpdateKeepsPlans(rows: seq<Subscription>, sub: EventObject, now: int)
    requires sub.priceId == Some(AnnualPrice)
    ensures var after := UpdatedEffect(rows, sub, false, false, now);
      |after| == |rows| && forall i :: 0 <= i < |rows| ==> after[i].plan == rows[i].plan
  {
    UpdatedEffectSpec(rows, sub, now);
    forall i | 0 <= i < |rows| {
      UpdatedPlanUnchangedForRealPrices(rows[i].plan, AnnualPrice);
    }
  }

  /** `subscription.deleted` cancels exactly the rows of that subscription;
      `invoice.payment_failed` marks them past_due and
      `invoice.payment_succeeded` active with the provider's period end; an
      invoice without a subscription changes nothing. No other row changes. */
  lemma StatusEventsSpec(rows: seq<Subscription>, e: EventObject, retrieved: StripeSubscription, now: int)
    ensures var deleted := DeletedEffect(rows, e, false, now);
      && |deleted| == |rows|
      && forall i :: 0 <= i < |rows| ==>
        deleted[i] == if rows[i].subscriptionId == Some(e.id) then rows[i].(status := Canceled, updatedAt := now)
                      else rows[i]
    ensures !Present(e.subscription) ==>
      FailedEffect(rows, e, false, now) == rows && SucceededEffect(rows, e, Returns(retrieved), false, now) == rows
    ensures Present(e.subscription) ==>
      var failed := FailedEffect(rows, e, false, now);
      var paid := SucceededEffect(rows, e, Returns(retrieved), false, now);
      && |failed| == |paid| == |rows|
      && forall i :: 0 <= i < |rows| ==>
        if rows[i].subscriptionId == e.subscription then
          && failed[i] == rows[i].(status := PastDue, updatedAt := now)
          && paid[i] == rows[i].(status := Active, endDate := retrieved.periodEnd * 1000, updatedAt := now)
        else failed[i] == rows[i] && paid[i] == rows[i]
  {
    UpdateWhereSpec(rows, BySubscription(e.id), StatusPatch(Canceled, now));
    if Present(e.subscription) {
      UpdateWhereSpec(rows, BySubscription(e.subscription.value), StatusPatch(PastDue, now));
      UpdateWhereSpec(rows, BySubscription(e.subscription.value), SucceededPatch(retrieved.periodEnd, now));
    }
  }

  /** A `subscription.updated` applied to its own result derives the same plan. */
  lemma PlanForUpdatedIdempotent(current: PlanType, priceId: Option<string>)
    ensures PlanForUpdated(PlanForUpdated(current, priceId), priceId) == PlanForUpdated(current, priceId)
  {
  }

  /** Redelivery of `subscription.updated`, `subscription.deleted`,
      `invoice.payment_succeeded` or `invoice.payment_failed`: handling the
      same event twice leaves the table as handling it once, at the time of the
      second delivery; the two runs differ only in `updated_at`. */
  lemma RedeliveryLastWins(rows: seq<Subscription>, e: Event, customer: Call<Customer>,
                           retrieved: Call<StripeSubscription>, id1: nat, id2: nat, now1: int, now2: int)
    requires Dispatch(e.kind) != OnSubscriptionCreated
    ensures EventEffect(EventEffect(rows, e, customer, retrieved, false, false, id1, now1),
                        e, customer, retrieved, false, false, id2, now2)
         == EventEffect(rows, e, customer, retrieved, false, false, id2, now2)
  {
    var o := e.payload;
    match Dispatch(e.kind)
    case OnSubscriptionUpdated =>
      var k := BySubscription(o.id);
      if Select(rows, k).OneRow? {
        var r := Select(rows, k).row;
        var p1 := UpdatedPatch(r.plan, o, now1);
        SelectAfterUpdate(rows, k, p1);
        PlanForUpdatedIdempotent(r.plan, o.priceId);
        UpdateTwiceLastWins(rows, k, p1, UpdatedPatch(r.plan, o, now2));
      }
    case OnSubscriptionDeleted =>
      UpdateTwiceLastWins(rows, BySubscription(o.id), StatusPatch(Canceled, now1), StatusPatch(Canceled, now2));
    case OnPaymentSucceeded =>
      if Present(o.subscription) && retrieved.Returns? {
        var p := SucceededPatch(retrieved.value.periodEnd, now1);
        UpdateTwiceLastWins(rows, BySubscription(o.subscription.value), p,
                            SucceededPatch(retrieved.value.periodEnd, now2));
      }
    case OnPaymentFailed =>
      if Present(o.subscription) {
        UpdateTwiceLastWins(rows, BySubscription(o.subscription.value),
                            StatusPatch(PastDue, now1), StatusPatch(PastDue, now2));
      }
    case OnlyLogged =>
  }

  /** Redelivery of `subscription.created` changes nothing more: the second
      upsert finds the user's row and writes the same values. */
  lemma CreatedRedelivery(rows: seq<Subscription>, sub: EventObject, userId: Option<string>,
                          id1: nat, id2: nat, now1: int, now2: int)
    ensures CreatedEffect(CreatedEffect(rows, sub, userId, false, id1, now1), sub, userId, false, id2, now2)
         == CreatedEffect(rows, sub, userId, false, id1, now1)
  {
    if Present(userId) {
      UpsertIdempotent(rows, userId.value, CreatedValues(sub), id1, now1, id2, now2);
    }
  }

  /** A failed payment marks the subscription's rows past_due; a later
      successful one makes them active again with the provider's period end.
      Rows of other subscriptions are untouched throughout. */
  lemma FailedThenRecovered(rows: seq<Subscription>, invoice: EventObject, sub: StripeSubscription,
                            now1: int, now2: int)
    requires Present(invoice.subscription)
    ensures var failed := FailedEffect(rows, invoice, false, now1);
      var recovered := SucceededEffect(failed, invoice, Returns(sub), false, now2);
      && |failed| == |recovered| == |rows|
      && forall i :: 0 <= i < |rows| ==>
        if rows[i].subscriptionId == invoice.subscription
        then failed[i].status == PastDue && recovered[i].status == Active
             && recovered[i].endDate == sub.periodEnd * 1000
        else failed[i] == rows[i] && recovered[i] == rows[i]
  {
    var k := BySubscription(invoice.subscription.value);
    var failed := FailedEffect(rows, invoice, false, now1);
    UpdateWhereSpec(rows, k, StatusPatch(PastDue, now1));
    UpdateWhereSpec(failed, k, SucceededPatch(sub.periodEnd, now2));
    forall i | 0 <= i < |rows| ensures Matches(failed[i], k) == Matches(rows[i], k) {
      ApplyKeepsMatch(rows[i], StatusPatch(PastDue, now1), k);
    }
  }

  /** As written, `subscription.created` never writes: the user id it reads is
      always undefined. */
  lemma CreatedAsWrittenNeverWrites(rows: seq<Subscription>, sub: EventObject, c: Customer,
                                    fault: bool, freshId: nat, now: int)
    ensures CreatedEffect(rows, sub, CreatedUserIdAsWritten(c), fault, freshId, now) == rows
  {
  }

  /** A customer linked to user U1 by create-checkout-session: as written the
      created event leaves an empty table empty, read as intended it gives U1
      a row. */
  lemma CreatedAsWrittenDropsLinkedCustomer()
    ensures var c := Customer("cus_1", map["supabase_user_id" := "U1"]);
      var sub := EventObject("sub_1", "cus_1", "active", Some(AnnualPrice), 0, 2592000, None);
      && CreatedEffect([], sub, CreatedUserIdAsWritten(c), false, 0, 0) == []
      && CreatedEffect([], sub, CreatedUserId(c), false, 0, 0) != []
  {
    var c := Customer("cus_1", map["supabase_user_id" := "U1"]);
    assert CreatedUserId(c) == Some("U1");
  }

  /** Read as intended, `subscription.created` for a customer whose metadata
      names user `u` leaves `u` with a row (exactly one when `u` had at most
      one) holding the mapped status, the derived plan, the period in
      milliseconds and the Stripe ids; other users' rows are unchanged. */
  lemma CreatedLinksCustomerUser(rows: seq<Subscription>, sub: EventObject, c: Customer,
                                 freshId: nat, now: int)
    requires "supabase_user_id" in c.metadata && c.metadata["supabase_user_id"] != ""
    ensures var u := c.metadata["supabase_user_id"];
      var after := CreatedEffect(rows, sub, CreatedUserId(c), false, freshId, now);
      && CountMatches(after, ByUser(u)) >= 1
      && (CountMatches(rows, ByUser(u)) <= 1 ==> CountMatches(after, ByUser(u)) == 1)
      && (forall i :: 0 <= i < |after| && after[i].userId == u ==>
            && after[i].status == MapStripeStatus(sub.status)
            && after[i].plan == PlanForCreated(sub.priceId)
            && after[i].startDate == sub.periodStart * 1000
            && after[i].endDate == sub.periodEnd * 1000
            && after[i].customerId == Some(sub.customer)
            && after[i].subscriptionId == Some(sub.id))
      && (forall i :: 0 <= i < |rows| && rows[i].userId != u ==> after[i] == rows[i])
  {
    var u := c.metadata["supabase_user_id"];
    UpsertedSpec(rows, u, CreatedValues(sub), freshId, now);
  }

  method HandleSubscriptionCreated(table: SubscriptionTable, sub: EventObject, customer: Call<Customer>,
                                   fault: bool, now: int)
    returns (calls: seq<ProviderCall>)
    requires table.Valid()
    modifies table
    ensures table.Valid()
    ensures calls == [RetrieveCustomer(sub.customer)]
    ensures table.rows == CreatedEffect(old(table.rows), sub, CustomerUserId(customer), fault, old(table.nextId), now)
  {
    calls := [RetrieveCustomer(sub.customer)];
    if customer.Throws? {
      return;
    }
    var userId := CreatedUserId(customer.value);
    if !Present(userId) {
      return;
    }
    var priceId := sub.priceId;
    var planType := Monthly;
    if priceId.Some? && Contains(priceId.value, "annual") {
      planType := Annual;
    }
    var values := RowValues(planType, MapStripeStatus(sub.status), sub.periodStart * 1000,
                            sub.periodEnd * 1000, Some(sub.customer), Some(sub.id), priceId);
    var ok := table.UpsertByUser(userId.value, values, now, fault);
  }

  method HandleSubscriptionUpdated(table: SubscriptionTable, sub: EventObject,
                                   fetchFault: bool, updateFault: bool, now: int)
    requires table.Valid()
    modifies table
    ensures table.Valid()
    ensures table.rows == UpdatedEffect(old(table.rows), sub, fetchFault, updateFault, now)
  {
    var found := table.Find(BySubscription(sub.id));
    if fetchFault || !found.OneRow? {
      return;
    }
    var priceId := sub.priceId;
    var planType := found.row.plan;
    if priceId.Some? {
      if Contains(priceId.value, "annual") {
        planType := Annual;
      } else if Contains(priceId.value, "monthly") {
        planType := Monthly;
      }
    }
    var patch := Patch(Some(planType), Some(MapStripeStatus(sub.status)),
                       Some(sub.periodStart * 1000), Some(sub.periodEnd * 1000),
                       None, None, priceId, Some(now));
    var ok := table.UpdateWhereStripeSubId(sub.id, patch, updateFault);
  }

  method HandleSubscriptionDeleted(table: SubscriptionTable, sub: EventObject, fault: bool, now: int)
    requires table.Valid()
    modifies table
    ensures table.Valid()
    ensures table.rows == DeletedEffect(old(table.rows), sub, fault, now)
  {
    var ok := table.UpdateWhereStripeSubId(sub.id, StatusPatch(Canceled, now), fault);
  }

  method HandlePaymentSucceeded(table: SubscriptionTable, invoice: EventObject,
                                retrieved: Call<StripeSubscription>, fault: bool, now: int)
    returns (calls: seq<ProviderCall>)
    requires table.Valid()
    modifies table
    ensures table.Valid()
    ensures calls == if Present(invoice.subscription) then [RetrieveSubscription(invoice.subscription.value)] else []
    ensures table.rows == SucceededEffect(old(table.rows), invoice, retrieved, fault, now)
  {
    calls := [];
    if !Present(invoice.subscription) {
      return;
    }
    calls := [RetrieveSubscription(invoice.subscription.value)];
    if retrieved.Throws? {
      return;
    }
    var patch := SucceededPatch(retrieved.value.periodEnd, now);
    var ok := table.UpdateWhereStripeSubId(invoice.subscription.value, patch, fault);
  }

  method HandlePaymentFailed(table: SubscriptionTable, invoice: EventObject, fault: bool, now: int)
    requires table.Valid()
    modifies table
    ensures table.Valid()
    ensures table.rows == FailedEffect(old(table.rows), invoice, fault, now)
  {
    if !Present(invoice.subscription) {
      return;
    }
    var ok := table.UpdateWhereStripeSubId(invoice.subscription.value, StatusPatch(PastDue, now), fault);
  }

  /** The endpoint. A missing or empty `stripe-signature` header, or a body
      whose signature does not verify (`signatureValid`, the outcome of
      `constructEvent`), is answered 400 before anything is read or written.
      Every handler catches its own errors, so a verified event is answered
      200 whatever the store or Stripe did. */
  method HandleWebhook(table: SubscriptionTable, signature: Option<string>, signatureValid: bool,
                       event: Event, customer: Call<Customer>, retrieved: Call<StripeSubscription>,
                       fetchFault: bool, writeFault: bool, now: int)
    returns (code: int, handled: Option<Handler>, calls: seq<ProviderCall>)
    requires table.Valid()
    modifies table
    ensures table.Valid()
    ensures !(Present(signature) && signatureValid) ==>
      code == 400 && handled == None && calls == [] && table.rows == old(table.rows)
    ensures Present(signature) && signatureValid ==>
      && code == 200
      && handled == Some(Dispatch(event.kind))
      && calls == EventCalls(event)
      && table.rows == EventEffect(old(table.rows), event, customer, retrieved,
                                   fetchFault, writeFault, old(table.nextId), now)
  {
    if !Present(signature) || !signatureValid {
      return 400, None, [];
    }
    var h := Dispatch(event.kind);
    calls := [];
    match h {
      case OnSubscriptionCreated =>
        calls := HandleSubscriptionCreated(table, event.payload, customer, writeFault, now);
      case OnSubscriptionUpdated =>
        HandleSubscriptionUpdated(table, event.payload, fetchFault, writeFault, now);
      case OnSubscriptionDeleted =>
        HandleSubscriptionDeleted(table, event.payload, writeFault, now);
      case OnPaymentSucceeded =>
        calls := HandlePaymentSucceeded(table, event.payload, retrieved, writeFault, now);
      case OnPaymentFailed =>
        HandlePaymentFailed(table, event.payload, writeFault, now);
      case OnlyLogged =>
    }
    code, handled := 200, Some(h);
  }
}
