/** The data-extension listing: checks that the session carries a live access
    token, asks the Marketing Cloud REST instance for its attribute-set
    definitions, and reshapes the answer. */
module DataExtensions {
  import opened Js
  import opened Session
  import opened Http

  /** One attribute-set definition as the REST API returns it;
      `definitionName` is the `definitionName.value` field. */
  datatype AttributeSetItem = AttributeSetItem(
    definitionId: string,
    definitionKey: string,
    definitionName: Option<string>,
    categoryId: Option<int>)

  /** The REST API's answer; any field may be missing. */
  datatype AttributeSetResponse = AttributeSetResponse(
    count: Option<int>,
    page: Option<int>,
    pageSize: Option<int>,
    items: Option<seq<AttributeSetItem>>)

  /** The requests the handler sends and its response. */
  datatype ListingPlan = ListingPlan(sent: seq<Request>, response: Response)

  const InternalError := "Internal server error"
  const AttributeSetPath := "contacts/v1/attributeSetDefinitions"

  /** The REST instance URL with a trailing slash ensured; a missing one
      interpolates as "undefined". */
  function RestBase(restInstanceUrl: Option<string>): (r: string)
    ensures EndsWith(r, "/")
    ensures restInstanceUrl.Some? ==> r == restInstanceUrl.value || r == restInstanceUrl.value + "/"
    ensures restInstanceUrl.Some? && EndsWith(restInstanceUrl.value, "/") ==> r == restInstanceUrl.value
  {
    if restInstanceUrl.Some? && EndsWith(restInstanceUrl.value, "/") then restInstanceUrl.value
    else Interpolate(restInstanceUrl) + "/"
  }

  /** The listing request, with the page numbers as `String` prints them. */
  function ListingRequest(apiUrl: string, page: Number, pageSize: Number, accessToken: string): Request {
    Request("GET", apiUrl + "?$page=" + NumberToString(page) + "&$pageSize=" + NumberToString(pageSize),
            [Header("Authorization", "Bearer " + accessToken), Header("Content-Type", "application/json")], [])
  }

  /** One listing entry; an empty or missing name falls back to the key. */
  function ToDataExtension(item: AttributeSetItem): DataExtension {
    DataExtension(item.definitionId, item.definitionKey, OrElse(item.definitionName, item.definitionKey), item.categoryId)
  }

  /** `items.map(...)`: one entry per item, in order. */
  function MapItems(items: seq<AttributeSetItem>): (r: seq<DataExtension>)
    ensures |r| == |items|
    ensures forall i :: 0 <= i < |items| ==> r[i] == ToDataExtension(items[i])
  {
    if items == [] then [] else [ToDataExtension(items[0])] + MapItems(items[1..])
  }

  /** The listing answer. `loaded` is what `GetSession` returned (`None`: it
      threw), `nowMs` the clock, `pageParam`/`pageSizeParam` the query
      parameters, and `upstream` the REST API's answer. */
  function Listing(loaded: Option<SessionRecord>, nowMs: int, pageParam: Option<string>, pageSizeParam: Option<string>,
                   upstream: HttpResult<AttributeSetResponse>): (r: ListingPlan)
    ensures r.response.Json? && |r.sent| <= 1
    ensures r.sent != [] ==>
              loaded.Some? && IsLoggedIn(loaded.value) && Truthy(loaded.value.accessToken)
              && loaded.value.restInstanceUrl.Some?
    ensures r.response.status == 200 ==> r.response.body.DataExtensions? && |r.sent| == 1
    ensures r.response.body.Unauthorized? || r.response.body.TokenExpired? ==> r.response.status == 401 && r.sent == []
  {
    if loaded.None? then ListingPlan([], Json(500, ErrorMessage(InternalError)))
    else
      var s := loaded.value;
      if !IsLoggedIn(s) || !Truthy(s.accessToken) then
        ListingPlan([], Json(401, Unauthorized(IsLoggedIn(s), Truthy(s.accessToken))))
      else if TruthyInt(s.tokenExpiresAt) && nowMs > s.tokenExpiresAt.value then
        ListingPlan([], Json(401, TokenExpired(s.tokenExpiresAt.value, nowMs, nowMs - s.tokenExpiresAt.value)))
      else
        var page := ParseInt(OrElse(pageParam, "1"));
        var pageSize := ParseInt(OrElse(pageSizeParam, "50"));
        var apiUrl := RestBase(s.restInstanceUrl) + AttributeSetPath;
        if s.restInstanceUrl.None? then
          // "undefined/contacts/..." is not an absolute URL: the fetch throws before sending
          ListingPlan([], Json(500, ErrorMessage(InternalError)))
        else
          var request := ListingRequest(apiUrl, page, pageSize, s.accessToken.value);
          if upstream.NetworkError? then ListingPlan([request], Json(500, ErrorMessage(InternalError)))
          else if !IsOk(upstream) then
            ListingPlan([request], Json(upstream.status,
                                        UpstreamFailure(apiUrl, upstream.status, s.restInstanceUrl, upstream.text)))
          else if upstream.json.None? then ListingPlan([request], Json(500, ErrorMessage(InternalError)))
          else
            var data := upstream.json.value;
            var items := if data.items.Some? then MapItems(data.items.value) else [];
            ListingPlan([request], Json(200, DataExtensions(items, Pagination(
              if TruthyInt(data.page) then Finite(data.page.value) else page,
              if TruthyInt(data.pageSize) then Finite(data.pageSize.value) else pageSize,
              if TruthyInt(data.count) then data.count.value else |items|))))
  }

  /** GET /api/data-extensions: loads the session, checks it, and lists; it writes nothing. */
  method DataExtensionsGet(store: SessionStore, nowMs: int, pageParam: Option<string>, pageSizeParam: Option<string>,
                           upstream: HttpResult<AttributeSetResponse>)
    returns (response: Response, sent: seq<Request>)
    ensures ListingPlan(sent, response)
         == Listing(if store.loadFails then None else Some(Normalise(store.persisted)), nowMs, pageParam, pageSizeParam, upstream)
  {
    var loaded := store.GetSession();
    sent := [];
    if loaded.None? {
      return Json(500, ErrorMessage(InternalError)), sent;
    }
    var session := loaded.value;
    if !IsLoggedIn(session) || !Truthy(session.accessToken) {
      return Json(401, Unauthorized(IsLoggedIn(session), Truthy(session.accessToken))), sent;
    }
    if TruthyInt(session.tokenExpiresAt) && nowMs > session.tokenExpiresAt.value {
      var expiresAt := session.tokenExpiresAt.value;
      return Json(401, TokenExpired(expiresAt, nowMs, nowMs - expiresAt)), sent;
    }
    var page := ParseInt(OrElse(pageParam, "1"));
    var pageSize := ParseInt(OrElse(pageSizeParam, "50"));
    var apiUrl := RestBase(session.restInstanceUrl) + AttributeSetPath;
    if session.restInstanceUrl.None? {
      return Json(500, ErrorMessage(InternalError)), sent;
    }
    sent := [ListingRequest(apiUrl, page, pageSize, session.accessToken.value)];
    if upstream.NetworkError? {
      return Json(500, ErrorMessage(InternalError)), sent;
    }
    if !IsOk(upstream) {
      return Json(upstream.status, UpstreamFailure(apiUrl, upstream.status, session.restInstanceUrl, upstream.text)), sent;
    }
    if upstream.json.None? {
      return Json(500, ErrorMessage(InternalError)), sent;
    }
    var data := upstream.json.value;
    var items := if data.items.Some? then MapItems(data.items.value) else [];
    var pagination := Pagination(
      if TruthyInt(data.page) then Finite(data.page.value) else page,
      if TruthyInt(data.pageSize) then Finite(data.pageSize.value) else pageSize,
      if TruthyInt(data.count) then data.count.value else |items|);
    response := Json(200, DataExtensions(items, pagination));
  }

  // ----- properties -----

  /** Without a logged-in session holding a truthy access token the answer is
      401 with both facts, exactly; nothing is sent. */
  lemma UnauthorizedIff(rec: SessionRecord, nowMs: int, pageParam: Option<string>, pageSizeParam: Option<string>,
                        upstream: HttpResult<AttributeSetResponse>)
    ensures var plan := Listing(Some(rec), nowMs, pageParam, pageSizeParam, upstream);
            ((plan.response.Json? && plan.response.body.Unauthorized?)
             <==> (!IsLoggedIn(rec) || !Truthy(rec.accessToken)))
    ensures !IsLoggedIn(rec) || !Truthy(rec.accessToken) ==>
              Listing(Some(rec), nowMs, pageParam, pageSizeParam, upstream)
              == ListingPlan([], Json(401, Unauthorized(IsLoggedIn(rec), Truthy(rec.accessToken))))
  {
  }

  /** An authorized session is refused as expired exactly when it records a
      non-zero expiry strictly before now: the expiry millisecond itself still
      passes, and a missing or zero expiry never expires. */
  lemma ExpiryIsStrict(rec: SessionRecord, nowMs: int, pageParam: Option<string>, pageSizeParam: Option<string>,
                       upstream: HttpResult<AttributeSetResponse>)
    requires IsLoggedIn(rec) && Truthy(rec.accessToken)
    ensures var plan := Listing(Some(rec), nowMs, pageParam, pageSizeParam, upstream);
            ((plan.response.Json? && plan.response.body.TokenExpired?)
             <==> (rec.tokenExpiresAt.Some? && rec.tokenExpiresAt.value != 0 && nowMs > rec.tokenExpiresAt.value))
    ensures var plan := Listing(Some(rec), nowMs, pageParam, pageSizeParam, upstream);
            plan.response.Json? && plan.response.body.TokenExpired? ==>
              (plan.response.status == 401 && plan.sent == []
               && plan.response.body.expiredAgo == nowMs - rec.tokenExpiresAt.value
               && plan.response.body.expiredAgo > 0)
  {
  }

  /** A request goes out only for an authorized, unexpired session with an
      instance URL: it is the listing request for the requested page, with the
      session's token as bearer credential. */
  lemma RequestNeedsLiveToken(loaded: Option<SessionRecord>, nowMs: int, pageParam: Option<string>,
                              pageSizeParam: Option<string>, upstream: HttpResult<AttributeSetResponse>)
    ensures var plan := Listing(loaded, nowMs, pageParam, pageSizeParam, upstream);
            plan.sent != [] ==>
              (&& loaded.Some? && IsLoggedIn(loaded.value) && Truthy(loaded.value.accessToken)
               && !(TruthyInt(loaded.value.tokenExpiresAt) && nowMs > loaded.value.tokenExpiresAt.value)
               && loaded.value.restInstanceUrl.Some?
               && plan.sent == [ListingRequest(RestBase(loaded.value.restInstanceUrl) + AttributeSetPath,
                                               ParseInt(OrElse(pageParam, "1")), ParseInt(OrElse(pageSizeParam, "50")),
                                               loaded.value.accessToken.value)])
  {
  }

  /** The listing request is a GET of the attribute-set URL followed by the
      page and page-size query, as `String` prints the two numbers, carrying
      the token as bearer credential and a JSON content type. */
  lemma ListingRequestShape(apiUrl: string, page: Number, pageSize: Number, accessToken: string)
    ensures var r := ListingRequest(apiUrl, page, pageSize, accessToken);
            && r.verb == "GET"
            && r.url == apiUrl + "?$page=" + NumberToString(page) + "&$pageSize=" + NumberToString(pageSize)
            && StartsWith(r.url, apiUrl + "?$page=")
            && r.headers == [Header("Authorization", "Bearer " + accessToken), Header("Content-Type", "application/json")]
            && r.form == []
  {
    var prefix := apiUrl + "?$page=";
    var rest := NumberToString(page) + "&$pageSize=" + NumberToString(pageSize);
    ConcatAssociates(prefix, NumberToString(page) + "&$pageSize=", NumberToString(pageSize));
    ConcatAssociates(prefix, NumberToString(page), "&$pageSize=");
    PrefixOfConcat(prefix, rest);
  }

  lemma ConcatAssociates(a: string, b: string, c: string)
    ensures a + b + c == a + (b + c)
  {
  }

  lemma PrefixOfConcat(a: string, b: string)
    ensures StartsWith(a + b, a)
  {
    assert (a + b)[..|a|] == a;
  }

  /** The decimal text of the two default paging values. */
  lemma DefaultPagingText()
    ensures IntToString(1) == "1"
    ensures IntToString(50) == "50"
  {
    assert NatToString(1) == [DigitChar(1)] == "1";
    assert NatToString(5) == [DigitChar(5)] == "5";
    assert NatToString(50) == NatToString(5) + [DigitChar(0)] == "50";
  }

  /** Paging: absent or empty parameters default to page 1 of 50. */
  lemma PagingDefaults()
    ensures ParseInt(OrElse(None, "1")) == Finite(1) && ParseInt(OrElse(Some(""), "1")) == Finite(1)
    ensures ParseInt(OrElse(None, "50")) == Finite(50) && ParseInt(OrElse(Some(""), "50")) == Finite(50)
  {
    DefaultPagingText();
    assert OrElse(None, "1") == OrElse(Some(""), "1") == IntToString(1);
    assert OrElse(None, "50") == OrElse(Some(""), "50") == IntToString(50);
    ParseIntOfIntToString(1);
    ParseIntOfIntToString(50);
  }

  /** The default page 1 of 50 (see `PagingDefaults`) is requested as
      `?$page=1&$pageSize=50`. */
  lemma DefaultListingUrl(apiUrl: string, accessToken: string)
    ensures ListingRequest(apiUrl, Finite(1), Finite(50), accessToken).url == apiUrl + "?$page=1&$pageSize=50"
  {
    DefaultPagingText();
    var query := "?$page=" + NumberToString(Finite(1)) + "&$pageSize=" + NumberToString(Finite(50));
    assert query == "?$page=1&$pageSize=50";
    assert ListingRequest(apiUrl, Finite(1), Finite(50), accessToken).url == apiUrl + query;
  }

  /** A paging parameter written as an integer is read back as that integer. */
  lemma PagingRoundTrip(n: int, fallback: string)
    ensures ParseInt(OrElse(Some(IntToString(n)), fallback)) == Finite(n)
  {
    ParseIntOfIntToString(n);
    var m: nat := if n < 0 then -n else n;
    NatToStringDigits(m);
    assert IntToString(n) != "";
  }

  /** A failed upstream answer is passed on with its own status and details. */
  lemma UpstreamFailurePassedOn(rec: SessionRecord, nowMs: int, pageParam: Option<string>, pageSizeParam: Option<string>,
                                status: int, text: string, json: Option<AttributeSetResponse>)
    requires IsLoggedIn(rec) && Truthy(rec.accessToken) && rec.restInstanceUrl.Some?
    requires !(TruthyInt(rec.tokenExpiresAt) && nowMs > rec.tokenExpiresAt.value)
    requires !(200 <= status <= 299)
    ensures Listing(Some(rec), nowMs, pageParam, pageSizeParam, Received(status, text, json)).response
         == Json(status, UpstreamFailure(RestBase(rec.restInstanceUrl) + AttributeSetPath, status, rec.restInstanceUrl, text))
  {
  }

  /** The catch-all 500 "Internal server error": a session that cannot be
      loaded, a session without an instance URL (nothing is sent), a network
      failure, and an ok answer whose JSON does not parse. */
  lemma InternalErrorCases(loaded: Option<SessionRecord>, nowMs: int, pageParam: Option<string>,
                           pageSizeParam: Option<string>, upstream: HttpResult<AttributeSetResponse>)
    ensures loaded.None? ==>
              Listing(loaded, nowMs, pageParam, pageSizeParam, upstream) == ListingPlan([], Json(500, ErrorMessage(InternalError)))
    ensures var plan := Listing(loaded, nowMs, pageParam, pageSizeParam, upstream);
            (loaded.Some? && IsLoggedIn(loaded.value) && Truthy(loaded.value.accessToken)
             && !(TruthyInt(loaded.value.tokenExpiresAt) && nowMs > loaded.value.tokenExpiresAt.value)) ==>
              && (loaded.value.restInstanceUrl.None? ==> plan == ListingPlan([], Json(500, ErrorMessage(InternalError))))
              && (loaded.value.restInstanceUrl.Some? && upstream.NetworkError? ==>
                    plan.response == Json(500, ErrorMessage(InternalError)) && |plan.sent| == 1)
              && (loaded.value.restInstanceUrl.Some? && upstream.Received? && 200 <= upstream.status <= 299
                  && upstream.json.None? ==>
                    plan.response == Json(500, ErrorMessage(InternalError)) && |plan.sent| == 1)
  {
  }

  /** A successful answer lists one entry per item, in order, each named by
      its definition name or else its key; the pagination prefers the
      upstream's truthy numbers, then the requested page and page size, and
      the item count. */
  lemma ListingContents(rec: SessionRecord, nowMs: int, pageParam: Option<string>, pageSizeParam: Option<string>,
                        status: int, text: string, data: AttributeSetResponse)
    requires IsLoggedIn(rec) && Truthy(rec.accessToken) && rec.restInstanceUrl.Some?
    requires !(TruthyInt(rec.tokenExpiresAt) && nowMs > rec.tokenExpiresAt.value)
    requires 200 <= status <= 299
    ensures var r := Listing(Some(rec), nowMs, pageParam, pageSizeParam, Received(status, text, Some(data))).response;
            var items := if data.items.Some? then data.items.value else [];
            && r.Json? && r.status == 200 && r.body.DataExtensions?
            && |r.body.items| == |items|
            && (forall i :: 0 <= i < |items| ==>
                 (r.body.items[i].id == items[i].definitionId && r.body.items[i].key == items[i].definitionKey
                  && r.body.items[i].name == (if Truthy(items[i].definitionName) then items[i].definitionName.value
                                              else items[i].definitionKey)
                  && r.body.items[i].categoryId == items[i].categoryId))
            && r.body.pagination.total == (if TruthyInt(data.count) then data.count.value else |items|)
            && r.body.pagination.page == (if TruthyInt(data.page) then Finite(data.page.value)
                                          else ParseInt(OrElse(pageParam, "1")))
            && r.body.pagination.pageSize == (if TruthyInt(data.pageSize) then Finite(data.pageSize.value)
                                              else ParseInt(OrElse(pageSizeParam, "50")))
  {
  }
}
