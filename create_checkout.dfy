/** The `create-checkout-session` edge function: links the caller to a Stripe
    customer (creating one the first time) and opens a checkout session. */
module CreateCheckoutSession {
  import opened Wrappers
  import opened Subscriptions
  import opened Stripe
  import opened Auth

  /** The request body. */
  datatype CheckoutRequest = CheckoutRequest(
    priceId: Option<string>,
    planType: Option<string>,
    email: Option<string>,
    successUrl: Option<string>,
    cancelUrl: Option<string>)

  /** The `stripe_customer_id` the profile read yields: none when the read
      fails or the user has no profile row, else the stored column. */
  function StoredCustomer(profiles: map<UserId, Option<string>>, user: UserId, readFault: bool)
    : (c: Option<string>)
    ensures c.Some? ==> !readFault && user in profiles && profiles[user] == c
    ensures !readFault && user in profiles ==> c == profiles[user]
  {
    if readFault || user !in profiles then None else profiles[user]
  }

  /** `update({ stripe_customer_id }).eq('id', user)`: writes the column of the
      user's profile row, and does nothing when there is no such row. */
  function Linked(profiles: map<UserId, Option<string>>, user: UserId, customerId: string)
    : (after: map<UserId, Option<string>>)
    ensures after.Keys == profiles.Keys
    ensures user in profiles ==> after[user] == Some(customerId)
    ensures forall u :: u in profiles && u != user ==> after[u] == profiles[u]
  {
    if user in profiles then profiles[user := Some(customerId)] else profiles
  }

  /** The new customer: the request's email or else the account's, and the
      user id in its metadata, where the webhook looks for it. */
  function NewCustomer(user: User, req: CheckoutRequest): (call: ProviderCall)
    ensures call.CreateCustomer? && call.supabaseUserId == user.id
    ensures Present(req.email) ==> call.email == req.email
    ensures !Present(req.email) ==> call.email == user.email
  {
    CreateCustomer(if Present(req.email) then req.email else user.email, user.id)
  }

  /** The session parameters: the customer, the requested price, the success
      URL with the session-id placeholder appended, the cancel URL as given,
      and the caller and plan in the metadata that verify-checkout-session
      later checks. */
  function CheckoutParams(user: User, customerId: string, req: CheckoutRequest): (p: SessionParams)
    ensures p.customer == Some(customerId) && p.price == req.priceId && p.cancelUrl == req.cancelUrl
    ensures p.successUrl == Interpolate(req.successUrl, Undefined) + "?session_id={CHECKOUT_SESSION_ID}"
    ensures p.subscription.None?
    ensures "user_id" in p.metadata && p.metadata["user_id"] == user.id
    ensures "plan_type" in p.metadata <==> req.planType.Some?
    ensures req.planType.Some? ==> p.metadata["plan_type"] == req.planType.value
  {
    SessionParams(Some(customerId), req.priceId,
                  Interpolate(req.successUrl, Undefined) + "?session_id={CHECKOUT_SESSION_ID}",
                  req.cancelUrl, None,
                  map["user_id" := user.id] + (if req.planType.Some? then map["plan_type" := req.planType.value] else map[]))
  }

  /** The `profiles` table, reduced to the one column the function reads and
      writes: a user is a key when their profile row exists. */
  class ProfileTable {
    var customerOf: map<UserId, Option<string>>

    constructor (initial: map<UserId, Option<string>>)
      ensures customerOf == initial
    {
      customerOf := initial;
    }

    /** The unchecked `update`; a failed call changes nothing. */
    method LinkCustomer(user: UserId, customerId: string, fault: bool)
      modifies this
      ensures customerOf == if fault then old(customerOf) else Linked(old(customerOf), user, customerId)
    {
      if !fault {
        customerOf := Linked(customerOf, user, customerId);
      }
    }
  }

  /** The whole handler. `readFault` is an error from the profile read,
      `created` Stripe's answer to `customers.create` (the new id),
      `writeFault` an error from the profile update (not checked), `session`
      Stripe's answer to `checkout.sessions.create` (the URL). Returns the
      status code, the URL on success and the Stripe calls made. */
  method HandleCreateCheckout(profiles: ProfileTable, authHeader: Option<string>, resolved: Option<User>,
                              req: CheckoutRequest, readFault: bool, created: Call<string>,
                              writeFault: bool, session: Call<Option<string>>)
      returns (code: int, sessionUrl: Option<string>, calls: seq<ProviderCall>)
    modifies profiles
    ensures Authenticate(authHeader, resolved).None? ==>
      code == 401 && sessionUrl.None? && calls == [] && profiles.customerOf == old(profiles.customerOf)
    ensures Authenticate(authHeader, resolved).Some? ==>
      var user := Authenticate(authHeader, resolved).value;
      var stored := StoredCustomer(old(profiles.customerOf), user.id, readFault);
      if Present(stored) then
        && profiles.customerOf == old(profiles.customerOf)
        && calls == [CreateCheckoutSession(CheckoutParams(user, stored.value, req))]
        && code == (if session.Throws? then 500 else 200)
        && sessionUrl == (if session.Throws? then None else session.value)
      else if created.Throws? then
        && profiles.customerOf == old(profiles.customerOf)
        && calls == [NewCustomer(user, req)] && code == 500 && sessionUrl.None?
      else
        && profiles.customerOf == (if writeFault then old(profiles.customerOf)
                                   else Linked(old(profiles.customerOf), user.id, created.value))
        && calls == [NewCustomer(user, req), CreateCheckoutSession(CheckoutParams(user, created.value, req))]
        && code == (if session.Throws? then 500 else 200)
        && sessionUrl == (if session.Throws? then None else session.value)
  {
    var caller := Authenticate(authHeader, resolved);
    if caller.None? {
      return 401, None, [];
    }
    var user := caller.value;
    var customerId := StoredCustomer(profiles.customerOf, user.id, readFault);
    calls := [];
    if !Present(customerId) {
      calls := [NewCustomer(user, req)];
      if created.Throws? {
        return 500, None, calls;
      }
      customerId := Some(created.value);
      profiles.LinkCustomer(user.id, created.value, writeFault);
    }
    calls := calls + [CreateCheckoutSession(CheckoutParams(user, customerId.value, req))];
    if session.Throws? {
      return 500, None, calls;
    }
    code, sessionUrl := 200, session.value;
  }

  /** The first checkout of a user with a profile row stores the new customer,
      even when the session itself then fails; the next checkout finds it and
      creates no second customer. */
  lemma SecondCheckoutReusesCustomer(profiles: map<UserId, Option<string>>, user: UserId, customerId: string)
    requires user in profiles && !Present(profiles[user]) && customerId != ""
    ensures !Present(StoredCustomer(profiles, user, false))
    ensures StoredCustomer(Linked(profiles, user, customerId), user, false) == Some(customerId)
    ensures Present(StoredCustomer(Linked(profiles, user, customerId), user, false))
  {
  }

  /** A user without a profile row is never linked: every checkout creates a
      new customer. */
  lemma NoProfileNoLink(profiles: map<UserId, Option<string>>, user: UserId, customerId: string, readFault: bool)
    requires user !in profiles
    ensures Linked(profiles, user, customerId) == profiles
    ensures StoredCustomer(Linked(profiles, user, customerId), user, readFault).None?
  {
  }
}
