/** The session store: a sealed cookie holding one session record, read with
    `GetSession`, filled in by `CreateSession` and cleared by `DestroySession`.
    Sealing and cookie encoding are abstracted away: the store keeps the
    decoded record it would read back (`persisted`) and the list of cookie
    writes it has issued (`cookieWrites`). */
module Session {
  import opened Js
  import opened Types

  /** The session object as the sealing library decodes it from the cookie.
      `isLoggedIn` may be absent (no cookie, or a destroyed one). The last three
      fields are not part of the declared shape: the routes read them, the
      OAuth callback offers them to `CreateSession`, which does not store them,
      so they hold whatever an earlier cookie carried. */
  datatype SessionRecord = SessionRecord(
    isLoggedIn: Option<bool>,
    user: Option<SessionUser>,
    organization: Option<SessionOrganization>,
    api: Option<SessionApi>,
    accessToken: Option<string>,
    tokenExpiresAt: Option<int>,
    restInstanceUrl: Option<string>)

  /** What an absent or destroyed cookie decodes to: no field at all. */
  const EmptyRecord := SessionRecord(None, None, None, None, None, None, None)

  /** The argument of `CreateSession`: the declared fields other than
      `isLoggedIn`, plus the token fields the OAuth callback passes along. */
  datatype SessionInput = SessionInput(
    accessToken: Option<string>,
    refreshToken: Option<string>,
    tokenExpiresAt: Number,
    restInstanceUrl: Option<string>,
    user: Option<SessionUser>,
    organization: Option<SessionOrganization>,
    api: Option<SessionApi>)

  datatype CookieWrite = Saved(record: SessionRecord) | Cleared

  /** A session that is logged in: the stored flag is exactly `true`. */
  predicate IsLoggedIn(rec: SessionRecord) {
    rec.isLoggedIn == Some(true)
  }

  /** `getSession`'s in-memory fix-up: a falsy flag becomes the default's `false`. */
  function Normalise(rec: SessionRecord): (r: SessionRecord)
    ensures r.isLoggedIn == Some(IsLoggedIn(rec))
    ensures r.(isLoggedIn := rec.isLoggedIn) == rec
  {
    if !IsLoggedIn(rec) then rec.(isLoggedIn := Some(DefaultSession.isLoggedIn)) else rec
  }

  /** The record `CreateSession(d)` saves over the stored record `rec`. */
  function Committed(rec: SessionRecord, d: SessionInput): (r: SessionRecord)
    ensures IsLoggedIn(r) && r.user == d.user && r.organization == d.organization && r.api == d.api
    ensures r.accessToken == rec.accessToken && r.tokenExpiresAt == rec.tokenExpiresAt
    ensures r.restInstanceUrl == rec.restInstanceUrl
  {
    Normalise(rec).(isLoggedIn := Some(true), user := d.user, organization := d.organization, api := d.api)
  }

  /** The declared view of a record. */
  function Declared(rec: SessionRecord): SessionData {
    SessionData(IsLoggedIn(rec), rec.user, rec.organization, rec.api)
  }

  class SessionStore {
    /** The decoded contents of the session cookie. */
    var persisted: SessionRecord
    /** Every save and destroy issued so far, oldest first. */
    var cookieWrites: seq<CookieWrite>
    /** The sealing configuration is rejected, so every load throws. */
    const loadFails: bool

    constructor (initial: SessionRecord, loadFails: bool)
      ensures persisted == initial && cookieWrites == [] && this.loadFails == loadFails
    {
      persisted := initial;
      cookieWrites := [];
      this.loadFails := loadFails;
    }

    /** Loads the session; a missing or false flag reads as `false`. */
    method GetSession() returns (session: Option<SessionRecord>)
      ensures session.None? <==> loadFails
      ensures session.Some? ==> session.value.isLoggedIn == Some(IsLoggedIn(persisted))
      ensures session.Some? ==> session.value.(isLoggedIn := persisted.isLoggedIn) == persisted
      ensures session.Some? ==> session.value == Normalise(persisted)
    {
      if loadFails {
        return None;
      }
      var s := persisted;
      if !IsLoggedIn(s) {
        s := s.(isLoggedIn := Some(DefaultSession.isLoggedIn));
      }
      return Some(s);
    }

    /** Marks the session logged in with `d`'s user, organization and api,
        then saves it once. Returns false when the session cannot be loaded. */
    method CreateSession(d: SessionInput) returns (ok: bool)
      modifies this
      ensures ok == !loadFails
      ensures ok ==> persisted == Committed(old(persisted), d)
      ensures ok ==> cookieWrites == old(cookieWrites) + [Saved(persisted)]
      ensures !ok ==> persisted == old(persisted) && cookieWrites == old(cookieWrites)
    {
      var loaded := GetSession();
      if loaded.None? {
        return false;
      }
      var session := loaded.value;
      session := session.(isLoggedIn := Some(true));
      session := session.(user := d.user);
      session := session.(organization := d.organization);
      session := session.(api := d.api);
      Save(session);
      return true;
    }

    /** Clears the session cookie. Returns false when the session cannot be loaded. */
    method DestroySession() returns (ok: bool)
      modifies this
      ensures ok == !loadFails
      ensures ok ==> persisted == EmptyRecord && cookieWrites == old(cookieWrites) + [Cleared]
      ensures !ok ==> persisted == old(persisted) && cookieWrites == old(cookieWrites)
    {
      var loaded := GetSession();
      if loaded.None? {
        return false;
      }
      persisted := EmptyRecord;
      cookieWrites := cookieWrites + [Cleared];
      return true;
    }

    method Save(record: SessionRecord)
      modifies this
      ensures persisted == record && cookieWrites == old(cookieWrites) + [Saved(record)]
    {
      persisted := record;
      cookieWrites := cookieWrites + [Saved(record)];
    }
  }

  // ----- properties of the store's transitions -----

  /** Loading never changes anything but the flag, and only a stored `true` reads as logged in. */
  lemma NormaliseFlag(rec: SessionRecord)
    ensures Normalise(rec).isLoggedIn.Some?
    ensures Normalise(rec).isLoggedIn.value <==> rec.isLoggedIn == Some(true)
    ensures Normalise(rec).(isLoggedIn := rec.isLoggedIn) == rec
    ensures Normalise(Normalise(rec)) == Normalise(rec)
  {
  }

  /** `CreateSession(d)` sets the flag and copies exactly `user`, `organization`
      and `api`; every other field keeps its stored value. */
  lemma CommittedFields(rec: SessionRecord, d: SessionInput)
    ensures Committed(rec, d).isLoggedIn == Some(true)
    ensures Committed(rec, d).user == d.user
    ensures Committed(rec, d).organization == d.organization
    ensures Committed(rec, d).api == d.api
    ensures Committed(rec, d).accessToken == rec.accessToken
    ensures Committed(rec, d).tokenExpiresAt == rec.tokenExpiresAt
    ensures Committed(rec, d).restInstanceUrl == rec.restInstanceUrl
  {
  }

  /** The token fields of the argument are never written: two arguments that
      agree on user, organization and api commit the same record. */
  lemma CommittedIgnoresTokens(rec: SessionRecord, d: SessionInput, e: SessionInput)
    requires d.user == e.user && d.organization == e.organization && d.api == e.api
    ensures Committed(rec, d) == Committed(rec, e)
  {
  }

  /** Round trip: after `CreateSession(d)` a load yields a logged-in session with `d`'s identity. */
  lemma CreateThenGet(rec: SessionRecord, d: SessionInput)
    ensures Normalise(Committed(rec, d)) == Committed(rec, d)
    ensures Declared(Normalise(Committed(rec, d))) == SessionData(true, d.user, d.organization, d.api)
  {
  }

  /** After `DestroySession` a load yields the default session and nothing else. */
  lemma DestroyThenGet()
    ensures Declared(Normalise(EmptyRecord)) == DefaultSession
    ensures Normalise(EmptyRecord) == EmptyRecord.(isLoggedIn := Some(false))
  {
  }
}
