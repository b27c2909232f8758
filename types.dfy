/** The records of the Marketing Cloud integration: the legacy signed-token
    payload (`MCJWTPayload` and its parts) and the declared shape of the
    session (`SessionData`) with its default. Optional properties (`x?: T`)
    are `Option<T>`; mandatory ones are plain fields, so a value of these
    types always carries them. */
module Types {
  import opened Js

  datatype MCUserTimezone = MCUserTimezone(shortName: string, longName: string, offset: int, dst: bool)

  datatype MCUser = MCUser(id: int, email: string, culture: string, timezone: Option<MCUserTimezone>)

  /** `id` is the business-unit id (MID), `enterpriseId` the enterprise id (EID). */
  datatype MCOrganization = MCOrganization(
    id: int,
    enterpriseId: int,
    dataContext: Option<string>,
    stackKey: Option<string>,
    region: Option<string>)

  datatype MCRestInfo = MCRestInfo(authEndpoint: string, apiEndpointBase: string, refreshToken: string)

  /** `features` is a record of unknown values; the model keeps its keys with string values. */
  datatype MCApplication = MCApplication(
    id: string,
    package: string,
    redirectUrl: Option<string>,
    features: Option<map<string, string>>,
    userPermissions: Option<seq<string>>)

  datatype MCRequestPayload = MCRequestPayload(
    claimsVersion: Option<int>,
    rest: MCRestInfo,
    user: MCUser,
    organization: MCOrganization,
    application: Option<MCApplication>)

  /** `exp` is in seconds since the epoch. */
  datatype MCJWTPayload = MCJWTPayload(exp: int, jti: Option<string>, request: MCRequestPayload)

  /** The session's user. The declared shape has `id`, `email` and `culture`;
      `name` is not declared, but the OAuth callback stores it and JavaScript
      keeps it. */
  datatype SessionUser = SessionUser(id: int, email: string, culture: string, name: Option<string>)

  datatype SessionOrganization = SessionOrganization(
    id: int,
    enterpriseId: int,
    stackKey: Option<string>,
    region: Option<string>)

  /** The legacy flow's API descriptors: exactly these three strings. */
  datatype SessionApi = SessionApi(authEndpoint: string, apiEndpoint: string, refreshToken: string)

  /** The declared session shape: only `isLoggedIn` is mandatory. */
  datatype SessionData = SessionData(
    isLoggedIn: bool,
    user: Option<SessionUser>,
    organization: Option<SessionOrganization>,
    api: Option<SessionApi>)

  const DefaultSession: SessionData := SessionData(false, None, None, None)

  /** The default session is logged out and holds no identity and no API access. */
  lemma DefaultSessionIsEmpty()
    ensures !DefaultSession.isLoggedIn
    ensures DefaultSession.user == None && DefaultSession.organization == None && DefaultSession.api == None
  {
  }
}
