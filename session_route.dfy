/** The session status endpoint: reports whether the visitor is logged in and
    who they are, and only whether API access exists, never the tokens. */
module SessionRoute {
  import opened Js
  import opened Session
  import opened Http

  const FetchFailed := "Failed to fetch session"

  /** `!!session.api?.refreshToken`. */
  predicate HasApiAccess(rec: SessionRecord) {
    rec.api.Some? && rec.api.value.refreshToken != ""
  }

  /** The status answer for what `GetSession` returned (`None`: it threw). */
  function SessionStatus(loaded: Option<SessionRecord>): (r: Response)
    ensures r.Json? && (r.status == 200 || r.status == 500)
    ensures r.status == 500 <==> loaded.None?
    ensures r.status == 500 ==> r.body == ErrorMessage(FetchFailed)
  {
    if loaded.None? then Json(500, ErrorMessage(FetchFailed))
    else if !IsLoggedIn(loaded.value) then Json(200, LoggedOut)
    else Json(200, LoggedIn(loaded.value.user, loaded.value.organization, HasApiAccess(loaded.value)))
  }

  /** GET /api/auth/session: loads the session and reports it; it writes nothing. */
  method SessionGet(store: SessionStore) returns (response: Response)
    ensures response == SessionStatus(if store.loadFails then None else Some(Normalise(store.persisted)))
  {
    var loaded := store.GetSession();
    if loaded.None? {
      return Json(500, ErrorMessage(FetchFailed));
    }
    var session := loaded.value;
    if !IsLoggedIn(session) {
      return Json(200, LoggedOut);
    }
    response := Json(200, LoggedIn(session.user, session.organization, HasApiAccess(session)));
  }

  /** The three answers: 500 exactly when loading throws, 200 with a logged-out
      body when the stored flag is not `true`, the identity exactly
      when the stored flag is `true`, and API access exactly when a non-empty
      refresh token is stored. */
  lemma StatusCases(loaded: Option<SessionRecord>)
    ensures SessionStatus(loaded).Json?
    ensures SessionStatus(loaded).status == 500 <==> loaded.None?
    ensures SessionStatus(loaded).body.LoggedIn? <==> loaded.Some? && IsLoggedIn(loaded.value)
    ensures loaded.Some? && !IsLoggedIn(loaded.value) ==> SessionStatus(loaded) == Json(200, LoggedOut)
    ensures loaded.Some? && IsLoggedIn(loaded.value) ==>
              SessionStatus(loaded)
              == Json(200, LoggedIn(loaded.value.user, loaded.value.organization,
                                    loaded.value.api.Some? && loaded.value.api.value.refreshToken != ""))
    ensures SessionStatus(loaded).body.LoggedIn? ==>
              (SessionStatus(loaded).body.user == loaded.value.user
               && SessionStatus(loaded).body.organization == loaded.value.organization
               && (SessionStatus(loaded).body.hasApiAccess
                   <==> loaded.value.api.Some? && loaded.value.api.value.refreshToken != ""))
  {
  }

  /** Nothing secret leaks: records that agree on the flag, the identity and
      whether a refresh token exists get the same answer, whatever their
      tokens, expiry, endpoints or instance URL. */
  lemma NoSecretsExposed(a: SessionRecord, b: SessionRecord)
    requires IsLoggedIn(a) == IsLoggedIn(b) && a.user == b.user && a.organization == b.organization
    requires (a.api.Some? && a.api.value.refreshToken != "") == (b.api.Some? && b.api.value.refreshToken != "")
    ensures SessionStatus(Some(a)) == SessionStatus(Some(b))
  {
  }
}
