/** The caller check every user-facing edge function starts with. */
module Auth {
  import opened Wrappers
  import opened Subscriptions

  /** A user as `supabase.auth.getUser` returns it. */
  datatype User = User(id: UserId, email: Option<string>)

  /** The caller: none when the `authorization` header is missing or empty, or
      when `getUser` on its token (whose answer is `resolved`) gives no user or
      an error. Both cases answer 401. */
  function Authenticate(authHeader: Option<string>, resolved: Option<User>): (caller: Option<User>)
    ensures caller.Some? <==> Present(authHeader) && resolved.Some?
    ensures caller.Some? ==> caller == resolved
  {
    if !Present(authHeader) then None else resolved
  }
}
