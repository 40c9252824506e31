/** The `change-subscription` edge function: the owner of a paid subscription
    gets a checkout session that moves it to another price. It only reads the
    subscriptions table. */
module ChangeSubscription {
  import opened Wrappers
  import opened Subscriptions
  import opened Store
  import opened Stripe
  import opened Auth

  /** The request body and the `origin` header. */
  datatype ChangeRequest = ChangeRequest(
    subscriptionId: Option<string>,
    newPriceId: Option<string>,
    successUrl: Option<string>,
    cancelUrl: Option<string>,
    origin: Option<string>)

  /** The answer: status code, the checkout URL on success, Stripe calls made. */
  datatype ChangeReply = ChangeReply(code: int, sessionUrl: Option<string>, calls: seq<ProviderCall>)

  /** The session parameters, for the caller's row `row` of subscription
      `subscriptionId`: the row's customer, the new price, the return URLs
      (the request's when given, else pages under the origin), the
      subscription being changed and the upgrade metadata. */
  function ChangeParams(user: User, subscriptionId: string, newPriceId: string,
                        row: Subscription, req: ChangeRequest): (p: SessionParams)
    ensures p.customer == row.customerId && p.price == Some(newPriceId)
    ensures p.subscription == Some(subscriptionId)
    ensures Present(req.successUrl) ==> p.successUrl == req.successUrl.value
    ensures !Present(req.successUrl) ==>
      p.successUrl == Interpolate(req.origin, Null) + "/subscription/success?session_id={CHECKOUT_SESSION_ID}"
    ensures p.cancelUrl == Some(if Present(req.cancelUrl) then req.cancelUrl.value else Interpolate(req.origin, Null) + "/settings")
    ensures p.metadata == map["user_id" := user.id, "action" := "upgrade", "subscription_id" := subscriptionId]
  {
    SessionParams(
      row.customerId,
      Some(newPriceId),
      if Present(req.successUrl) then req.successUrl.value
      else Interpolate(req.origin, Null) + "/subscription/success?session_id={CHECKOUT_SESSION_ID}",
      Some(if Present(req.cancelUrl) then req.cancelUrl.value else Interpolate(req.origin, Null) + "/settings"),
      Some(subscriptionId),
      map["user_id" := user.id, "action" := "upgrade", "subscription_id" := subscriptionId])
  }

  /** The whole handler. `lookupFault` is an error from the ownership query,
      `session` Stripe's answer (the new session's URL, absent when Stripe
      gives none). 401 without a caller, 400 when either id is missing, 403
      unless `.single()` finds exactly one row of the caller with that Stripe
      id, 500 when Stripe throws. */
  function Change(caller: Option<User>, req: ChangeRequest, rows: seq<Subscription>,
                  lookupFault: bool, session: Call<Option<string>>): (r: ChangeReply)
    ensures r.code in {200, 400, 401, 403, 500}
    ensures r.code == 401 <==> caller.None?
    ensures r.code == 400 <==> caller.Some? && !(Present(req.subscriptionId) && Present(req.newPriceId))
    ensures r.calls != [] <==>
      && caller.Some? && Present(req.subscriptionId) && Present(req.newPriceId) && !lookupFault
      && CountMatches(rows, OwnedBy(req.subscriptionId.value, caller.value.id)) == 1
    ensures r.calls != [] ==>
      && Select(rows, OwnedBy(req.subscriptionId.value, caller.value.id)).OneRow?
      && r.calls == [CreateCheckoutSession(ChangeParams(caller.value, req.subscriptionId.value, req.newPriceId.value,
                                            Select(rows, OwnedBy(req.subscriptionId.value, caller.value.id)).row, req))]
    ensures r.code == 200 <==> r.calls != [] && session.Returns?
    ensures r.code == 200 ==> r.sessionUrl == session.value
    ensures r.code != 200 ==> r.sessionUrl.None?
  {
    if caller.None? then ChangeReply(401, None, [])
    else if !Present(req.subscriptionId) || !Present(req.newPriceId) then ChangeReply(400, None, [])
    else if lookupFault then ChangeReply(403, None, [])
    else match Select(rows, OwnedBy(req.subscriptionId.value, caller.value.id))
      case OneRow(row) =>
        var calls := [CreateCheckoutSession(ChangeParams(caller.value, req.subscriptionId.value,
                                                         req.newPriceId.value, row, req))];
        if session.Throws? then ChangeReply(500, None, calls)
        else ChangeReply(200, session.value, calls)
      case _ => ChangeReply(403, None, [])
  }

  /** Nobody changes a subscription they do not hold: a session is created
      only for a row whose owner is the caller and whose Stripe id is the one
      asked for, and it carries that row's customer. */
  lemma ChangeOnlyOwnSubscription(caller: Option<User>, req: ChangeRequest, rows: seq<Subscription>,
                                  lookupFault: bool, session: Call<Option<string>>)
    requires Change(caller, req, rows, lookupFault, session).calls != []
    ensures exists i :: && 0 <= i < |rows| && rows[i].userId == caller.value.id
                        && rows[i].subscriptionId == req.subscriptionId
                        && Change(caller, req, rows, lookupFault, session).calls[0].params.customer == rows[i].customerId
  {
    var row := Select(rows, OwnedBy(req.subscriptionId.value, caller.value.id)).row;
    var i :| 0 <= i < |rows| && rows[i] == row;
  }
}
