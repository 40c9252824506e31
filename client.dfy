/** What the browser-side code does besides reading and writing tables: the
    edge functions it invokes, the pages it moves to, and its toasts. */
module Client {
  import opened Wrappers

  /** The body of a `supabase.functions.invoke` call. */
  datatype InvokeBody =
    | CancelBody(subscriptionId: Option<string>)
    | ChangeBody(subscriptionId: Option<string>, newPriceId: string, userId: string,
                 successUrl: string, cancelUrl: string)

  datatype ToastKind = Success | Failure | Info

  /** One observable step, in order. */
  datatype Effect =
    | LookUpUser              // `supabase.auth.getUser()`
    | Invoke(body: InvokeBody)
    | Navigate(path: string)  // `navigate(path)` inside the app
    | Redirect(url: string)   // `window.location.href = url`
    | Refresh                 // the `onSubscriptionUpdated` callback
    | Toast(kind: ToastKind)
}
