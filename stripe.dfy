/** The Stripe objects the edge functions read, the parameters they send, and
    the record of the calls they make. Stripe itself is outside the model: what
    a call returns is a parameter of the handler that makes it. */
module Stripe {
  import opened Wrappers
  import opened Subscriptions

  /** The price ids the client sends (`STRIPE_PRICES`). */
  const MonthlyPrice: string := "price_1P48jKJ3nN8yCZvlLxw1hv4z"
  const AnnualPrice: string := "price_1P48kQJ3nN8yCZvlzZMCLlTN"

  /** The fields the webhook handlers read from `event.data.object`: a
      subscription (`id`, `customer`, `status`, the first item's price id, the
      current period in seconds) or an invoice (`id`, `subscription`). */
  datatype EventObject = EventObject(
    id: string,
    customer: string,
    status: string,
    priceId: Option<string>,
    periodStart: int,
    periodEnd: int,
    subscription: Option<string>)

  datatype Event = Event(kind: string, payload: EventObject)

  /** A subscription as `subscriptions.retrieve` returns it. */
  datatype StripeSubscription = StripeSubscription(
    id: string,
    status: string,
    priceId: Option<string>,
    periodStart: int,
    periodEnd: int)

  /** A customer as `customers.retrieve` returns it. */
  datatype Customer = Customer(id: string, metadata: map<string, string>)

  /** A checkout session as `checkout.sessions.retrieve` returns it with
      `subscription` and `customer` expanded into objects. */
  datatype CheckoutSession = CheckoutSession(
    id: string,
    paymentStatus: string,
    metadataUserId: Option<string>,
    metadataPlan: Option<PlanType>,
    customer: Option<Customer>,
    subscription: Option<StripeSubscription>)

  /** The parameters of `checkout.sessions.create` that the model follows. */
  datatype SessionParams = SessionParams(
    customer: Option<string>,
    price: Option<string>,
    successUrl: string,
    cancelUrl: Option<string>,
    subscription: Option<string>,
    metadata: map<string, string>)

  /** One call into Stripe, in the order a handler makes them. */
  datatype ProviderCall =
    | RetrieveCustomer(customerId: string)
    | RetrieveSubscription(subscriptionId: string)
    | RetrieveCheckoutSession(sessionId: string)
    | CancelAtPeriodEnd(subscriptionId: string)
    | CreateCustomer(email: Option<string>, supabaseUserId: string)
    | CreateCheckoutSession(params: SessionParams)
}
