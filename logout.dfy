/** Sign-out: clears the session cookie and always sends the visitor home. */
module Logout {
  import opened Js
  import opened Session
  import opened Http

  /** GET /api/auth/logout: the answer is the same redirect whether or not the
      session could be cleared. */
  method LogoutGet(store: SessionStore, env: Env, origin: string) returns (response: Response)
    modifies store
    ensures response == Redirect(Url(BaseUrl(env, origin), "/", []), false)
    ensures !store.loadFails ==> store.persisted == EmptyRecord && store.cookieWrites == old(store.cookieWrites) + [Cleared]
    ensures store.loadFails ==> store.persisted == old(store.persisted) && store.cookieWrites == old(store.cookieWrites)
  {
    var _ := store.DestroySession();
    response := Redirect(Url(BaseUrl(env, origin), "/", []), false);
  }

  /** POST /api/auth/logout behaves exactly as GET. */
  method LogoutPost(store: SessionStore, env: Env, origin: string) returns (response: Response)
    modifies store
    ensures response == Redirect(Url(BaseUrl(env, origin), "/", []), false)
    ensures !store.loadFails ==> store.persisted == EmptyRecord && store.cookieWrites == old(store.cookieWrites) + [Cleared]
    ensures store.loadFails ==> store.persisted == old(store.persisted) && store.cookieWrites == old(store.cookieWrites)
  {
    response := LogoutGet(store, env, origin);
  }
}
