/**
 * The HTTP layer (server/server.js): configuration, the CORS allow-list,
 * HTTP Basic authentication of the operator, and the three report routes.
 * Each route is a method that decides its response from an abstract request
 * and calls into the report table; the decisions themselves are functions.
 */
module Server {
  import opened Wrappers
  import opened Text
  import opened ReportStore

  // ---------------------------------------------------------------------------
  // Configuration
  // ---------------------------------------------------------------------------

  const DefaultClientOrigin := "http://localhost:5173"
  const DefaultAdminUser := "consigliere"
  const DefaultAdminPass := "BariLoseto2025!"

  /** The settings read from the environment at start-up. */
  datatype Config = Config(clientOrigin: string, adminUser: string, adminPass: string)

  /** `process.env.NAME || fallback`: an unset (here: empty) or empty
      variable gives the fallback. */
  function EnvOr(value: string, fallback: string): (r: string)
    ensures value != "" ==> r == value
    ensures value == "" ==> r == fallback
  {
    if value != "" then value else fallback
  }

  /** The configuration built from `CLIENT_ORIGIN`, `ADMIN_USER` and
      `ADMIN_PASS`. None of the three settings is ever empty, so the
      operator credentials can never be the empty pair. */
  function ConfigFromEnv(clientOrigin: string, adminUser: string, adminPass: string): (c: Config)
    ensures c.clientOrigin != "" && c.adminUser != "" && c.adminPass != ""
    ensures adminUser == "" ==> c.adminUser == DefaultAdminUser
    ensures adminPass == "" ==> c.adminPass == DefaultAdminPass
    ensures clientOrigin == "" ==> c.clientOrigin == DefaultClientOrigin
  {
    Config(EnvOr(clientOrigin, DefaultClientOrigin), EnvOr(adminUser, DefaultAdminUser),
           EnvOr(adminPass, DefaultAdminPass))
  }

  // ---------------------------------------------------------------------------
  // Responses
  // ---------------------------------------------------------------------------

  /** A row as GET /api/reports sends it: the row plus its photo URL. */
  datatype ListedReport = ListedReport(row: Row, photoUrl: string)

  datatype Body =
    | ErrorBody(error: string)                      // { error }
    | CreatedBody(report: Report, photoUrl: string) // { ...report, photoUrl }
    | ListBody(reports: seq<ListedReport>)          // [ ...rows with photoUrl ]
    | OkBody                                        // { ok: true }

  datatype Response = Response(status: int, wwwAuthenticate: Option<string>, body: Body)

  const BasicChallenge := "Basic realm=\"Admin\""

  /** What `requireAdmin` answers when the credentials do not match. */
  const UnauthorizedResponse := Response(401, Some(BasicChallenge), ErrorBody("Unauthorized"))

  /** The final error middleware: the error's status code, or 500 when it
      has none (0 stands for an absent code, which is falsy), with the
      error's message, or a fixed one when that is empty. */
  function ErrorHandler(statusCode: int, message: string): (r: Response)
    ensures statusCode != 0 ==> r.status == statusCode
    ensures statusCode == 0 ==> r.status == 500
    ensures r.wwwAuthenticate == None && r.body.ErrorBody? && r.body.error != ""
    ensures message != "" ==> r.body.error == message
  {
    Response(if statusCode != 0 then statusCode else 500, None,
             ErrorBody(if message != "" then message else "Server error"))
  }

  /** An error without a status code: the CORS refusal, an upload rejection
      and a store failure all end as 500 with their message. */
  function ServerError(message: string): (r: Response)
    ensures r.status == 500 && r.wwwAuthenticate == None
    ensures r.body.ErrorBody? && r.body.error != ""
    ensures message != "" ==> r.body.error == message
  {
    ErrorHandler(0, message)
  }

  /** `photoUrl`: the photo path under the request's base URL, or empty
      when the report has no photo. */
  function PhotoUrl(photoPath: string, baseUrl: string): (r: string)
    ensures r == "" <==> photoPath == ""
    ensures photoPath != "" ==> r == baseUrl + photoPath
  {
    if photoPath != "" then baseUrl + photoPath else ""
  }

  function WithPhotoUrls(rows: seq<Row>, baseUrl: string): (r: seq<ListedReport>)
    ensures |r| == |rows|
    ensures forall i | 0 <= i < |r| :: r[i].row == rows[i] && r[i].photoUrl == PhotoUrl(rows[i].photoPath, baseUrl)
  {
    seq(|rows|, i requires 0 <= i < |rows| => ListedReport(rows[i], PhotoUrl(rows[i].photoPath, baseUrl)))
  }

  // ---------------------------------------------------------------------------
  // CORS
  // ---------------------------------------------------------------------------

  /** `.map((origin) => origin.trim()).filter(Boolean)`. */
  function TrimmedNonEmpty(parts: seq<string>): (r: seq<string>)
    ensures forall o | o in r :: o != "" && exists p | p in parts :: Trim(p) == o
    ensures forall p | p in parts && Trim(p) != "" :: Trim(p) in r
  {
    if parts == [] then []
    else
      var rest := TrimmedNonEmpty(parts[1..]);
      assert forall p | p in parts[1..] :: p in parts;
      (if Trim(parts[0]) != "" then [Trim(parts[0])] else []) + rest
  }

  /** The allow-list: the comma-separated entries of `CLIENT_ORIGIN`,
      trimmed, empty entries dropped. */
  function CorsOrigins(clientOrigin: string): (r: seq<string>)
    ensures forall o | o in r :: o != "" && Trim(o) == o
    ensures forall o | o in r :: ',' !in o
  {
    var parts := Split(clientOrigin, ',');
    var r := TrimmedNonEmpty(parts);
    forall o | o in r
      ensures Trim(o) == o && ',' !in o
    {
      var p :| p in parts && Trim(p) == o;
      TrimIdempotent(p);
      TrimmedHasNo(p, ',');
    }
    r
  }

  lemma TrimmedHasNo(s: string, c: char)
    requires c !in s
    ensures c !in Trim(s)
  {
    TrimSpec(s);
    var r := Trim(s);
    var k :| 0 <= k <= |s| - |r| && r == s[k..k + |r|]
             && AllWhitespace(s[..k]) && AllWhitespace(s[k + |r|..]);
    forall i | 0 <= i < |r| ensures r[i] != c {
      assert r[i] == s[k + i];
    }
  }

  /** The CORS origin callback: a request without an Origin header passes,
      a listed origin passes, any other origin is refused with an error
      that the error middleware turns into 500. */
  function CorsCheck(origin: string, allowList: seq<string>): (r: Option<Response>)
    ensures r.None? <==> origin == "" || origin in allowList
    ensures r.Some? ==> r.value == ServerError("Not allowed by CORS")
  {
    if origin == "" then None
    else if origin in allowList then None
    else Some(ServerError("Not allowed by CORS"))
  }

  /** An origin is let through exactly when it is absent or equals one
      trimmed, non-empty entry of `CLIENT_ORIGIN`. */
  lemma OriginAllowedIff(origin: string, clientOrigin: string)
    ensures CorsCheck(origin, CorsOrigins(clientOrigin)).None? <==>
              origin == "" || exists p | p in Split(clientOrigin, ',') :: Trim(p) == origin
  {
  }

  // ---------------------------------------------------------------------------
  // The middleware every route runs behind
  // ---------------------------------------------------------------------------

  /** What the JSON body parser made of the request: nothing to parse or a
      parsed body, or an error carrying its status code (400 for malformed
      JSON, 413 for a body over 2 MB) and message. */
  datatype BodyParse = Parsed | ParseError(statusCode: ErrorStatus, message: string)

  /** The status codes of HTTP errors: client and server errors. */
  type ErrorStatus = c: int | 400 <= c <= 599 witness 400

  /** The CORS check, then the JSON body parser: the answer a request gets
      before it reaches a route, or None when it reaches the route. */
  function Middleware(origin: string, config: Config, body: BodyParse): (r: Option<Response>)
    ensures r.None? <==> (origin == "" || origin in CorsOrigins(config.clientOrigin)) && body.Parsed?
    ensures CorsCheck(origin, CorsOrigins(config.clientOrigin)).Some? ==>
              r == CorsCheck(origin, CorsOrigins(config.clientOrigin))
    ensures CorsCheck(origin, CorsOrigins(config.clientOrigin)).None? && body.ParseError? ==>
              r == Some(ErrorHandler(body.statusCode, body.message))
  {
    var cors := CorsCheck(origin, CorsOrigins(config.clientOrigin));
    if cors.Some? then cors
    else if body.ParseError? then Some(ErrorHandler(body.statusCode, body.message))
    else None
  }

  /** A request the middleware stops never gets the Basic challenge, so it
      is never the 401 that asks the operator to log in: a refused origin
      gets 500 and a body that does not parse gets its parser's status,
      whatever the credentials. */
  lemma MiddlewareBeforeAuth(origin: string, config: Config, body: BodyParse)
    requires Middleware(origin, config, body).Some?
    ensures Middleware(origin, config, body).value.wwwAuthenticate == None
    ensures Middleware(origin, config, body).value != UnauthorizedResponse
  {
  }

  // ---------------------------------------------------------------------------
  // HTTP Basic authentication
  // ---------------------------------------------------------------------------

  datatype Credentials = Credentials(user: string, pass: string)

  /** Splits decoded `user:pass` at the FIRST colon, as section 2 of
      RFC 7617 requires: the user-id holds no colon, the password may. */
  function SplitCredentials(decoded: string): (r: Option<Credentials>)
    ensures r.None? <==> ':' !in decoded
    ensures r.Some? ==> ':' !in r.value.user && decoded == r.value.user + ":" + r.value.pass
  {
    var i := IndexOf(decoded, ':');
    if i == -1 then None
    else
      assert decoded == decoded[..i] + ":" + decoded[i + 1..];
      Some(Credentials(decoded[..i], decoded[i + 1..]))
  }

  /** Joining a colon-free user-id and any password with a colon, then
      splitting, gives both back. */
  lemma SplitCredentialsRoundTrip(user: string, pass: string)
    requires ':' !in user
    ensures SplitCredentials(user + ":" + pass) == Some(Credentials(user, pass))
  {
    var s := user + ":" + pass;
    var i := IndexOf(s, ':');
    assert s[|user|] == ':';
    assert i == |user|;
    assert s[..i] == user && s[i + 1..] == pass;
  }

  /** `parseBasicAuth`: null unless the header uses the `Basic ` scheme;
      otherwise the Base64 payload after it, decoded, split at its first
      colon. Base64 decoding is a parameter of the model. */
  function ParseBasicAuth(header: string, decodeBase64: string -> string): (r: Option<Credentials>)
    ensures !("Basic " <= header) ==> r == None
    ensures "Basic " <= header ==>
              (r.None? <==> ':' !in decodeBase64(header[6..]))
              && (r.Some? ==> decodeBase64(header[6..]) == r.value.user + ":" + r.value.pass
                              && ':' !in r.value.user)
  {
    if "Basic " <= header then SplitCredentials(decodeBase64(header[6..])) else None
  }

  /** `requireAdmin`: the request proceeds (None) exactly when the parsed
      user and password both equal the configured ones; otherwise 401 with
      a Basic challenge. */
  function RequireAdmin(header: string, decodeBase64: string -> string, config: Config): (r: Option<Response>)
    ensures r.None? <==> ParseBasicAuth(header, decodeBase64) == Some(Credentials(config.adminUser, config.adminPass))
    ensures r.Some? ==> r.value == UnauthorizedResponse
  {
    var creds := ParseBasicAuth(header, decodeBase64);
    if creds.None? || creds.value.user != config.adminUser || creds.value.pass != config.adminPass then
      Some(UnauthorizedResponse)
    else
      None
  }

  /** The operator's own header passes: `Basic ` followed by any payload
      that decodes to `user:pass` with the configured pair. */
  lemma OperatorHeaderPasses(payload: string, decodeBase64: string -> string, config: Config)
    requires ':' !in config.adminUser
    requires decodeBase64(payload) == config.adminUser + ":" + config.adminPass
    ensures RequireAdmin("Basic " + payload, decodeBase64, config) == None
  {
    var header := "Basic " + payload;
    assert "Basic " <= header && header[6..] == payload;
    SplitCredentialsRoundTrip(config.adminUser, config.adminPass);
  }

  // ---------------------------------------------------------------------------
  // POST /api/reports
  // ---------------------------------------------------------------------------

  /** The multipart fields of a create request. A missing field is the
      empty string (both are falsy). `lat` and `lng` are what
      `Number.parseFloat` yields, None when that is not a finite number. */
  datatype CreateRequest = CreateRequest(
    category: string,
    description: string,
    address: string,
    lat: Option<real>,
    lng: Option<real>,
    reporterFirstName: string,
    reporterLastName: string)

  /** What the upload middleware made of the `photo` part: no file, a file
      stored under a generated name, or a rejection (a non-image MIME type,
      a file over 6 MB) with the error's message. */
  datatype Upload = NoFile | Stored(filename: string) | Rejected(message: string)

  const MissingFieldsMessage := "category and description are required"
  const MissingCoordinatesMessage := "lat and lng are required"
  const ShortDescriptionMessage := "description must be at least 10 characters"
  const MinDescriptionLength := 10

  /** All create checks pass. */
  predicate CreateAccepted(req: CreateRequest) {
    && req.category != "" && req.description != ""
    && req.lat.Some? && req.lng.Some?
    && |Trim(req.description)| >= MinDescriptionLength
  }

  /** The create checks, in their order, and the record built on success. */
  function ValidateCreate(req: CreateRequest, file: Option<string>, id: string, createdAt: string): (r: Result<Report, string>)
    ensures r.Success? <==> CreateAccepted(req)
    ensures req.category == "" || req.description == "" ==> r == Failure(MissingFieldsMessage)
    ensures req.category != "" && req.description != "" && (req.lat.None? || req.lng.None?) ==>
              r == Failure(MissingCoordinatesMessage)
    ensures req.category != "" && req.description != "" && req.lat.Some? && req.lng.Some?
            && |Trim(req.description)| < MinDescriptionLength ==>
              r == Failure(ShortDescriptionMessage)
    ensures r.Success? ==>
              && r.value.id == id && r.value.createdAt == createdAt && r.value.status == "nuova"
              && r.value.category == Trim(req.category)
              && r.value.description == Trim(req.description)
              && r.value.address == Trim(req.address)
              && r.value.reporterFirstName == Trim(req.reporterFirstName)
              && r.value.reporterLastName == Trim(req.reporterLastName)
              && r.value.lat == req.lat.value && r.value.lng == req.lng.value
              && (file.None? <==> r.value.photoPath == "")
              && (file.Some? ==> r.value.photoPath == "/uploads/" + file.value)
  {
    if req.category == "" || req.description == "" then
      Failure(MissingFieldsMessage)
    else if req.lat.None? || req.lng.None? then
      Failure(MissingCoordinatesMessage)
    else if |Trim(req.description)| < MinDescriptionLength then
      Failure(ShortDescriptionMessage)
    else
      Success(Report(
        id,
        Trim(req.category),
        Trim(req.description),
        if req.address != "" then Trim(req.address) else "",
        req.lat.value,
        req.lng.value,
        if file.Some? then "/uploads/" + file.value else "",
        if req.reporterFirstName != "" then Trim(req.reporterFirstName) else "",
        if req.reporterLastName != "" then Trim(req.reporterLastName) else "",
        "nuova",
        createdAt))
  }

  /** An accepted description is stored trimmed and at least 10 long, and
      the stored status is one PATCH also accepts. */
  lemma AcceptedReportShape(req: CreateRequest, file: Option<string>, id: string, createdAt: string)
    requires CreateAccepted(req)
    ensures var report := ValidateCreate(req, file, id, createdAt).value;
            && |report.description| >= MinDescriptionLength
            && Trim(report.description) == report.description
            && report.status in AllowedStatuses
  {
    TrimIdempotent(req.description);
  }

  /** The category is only tested for being non-empty: one made only of
      whitespace passes every check when the rest of the request does, and
      is stored as the empty string. */
  lemma BlankCategoryStoredEmpty(req: CreateRequest, file: Option<string>, id: string, createdAt: string)
    requires req.category != "" && AllWhitespace(req.category)
    requires req.description != "" && req.lat.Some? && req.lng.Some?
    requires |Trim(req.description)| >= MinDescriptionLength
    ensures ValidateCreate(req, file, id, createdAt).Success?
    ensures ValidateCreate(req, file, id, createdAt).value.category == ""
  {
    TrimEmptyIffWhitespace(req.category);
  }

  /** The POST /api/reports route behind the middleware. A request the
      middleware stops gets its answer; then a rejected upload fails (500);
      then the create checks (400); then the insert, whose PRIMARY KEY
      failure reaches the error middleware (500); else 201 with the record
      and its photo URL. Nothing is stored unless the answer is 201. */
  method PostReport(store: ReportTable, origin: string, config: Config, body: BodyParse,
                    req: CreateRequest, upload: Upload, id: string,
                    createdAt: string, baseUrl: string) returns (resp: Response)
    requires store.Valid()
    modifies store
    ensures store.Valid()
    ensures resp.status != 201 ==> store.rows == old(store.rows)
    ensures Middleware(origin, config, body).Some? ==> resp == Middleware(origin, config, body).value
    ensures Middleware(origin, config, body).None? && upload.Rejected? ==> resp == ServerError(upload.message)
    ensures Middleware(origin, config, body).None? && !upload.Rejected? ==>
              var file := if upload.Stored? then Some(upload.filename) else None;
              var checked := ValidateCreate(req, file, id, createdAt);
              && (checked.Failure? ==> resp == Response(400, None, ErrorBody(checked.error)))
              && (checked.Success? && HasId(old(store.rows), id) ==>
                    resp == ServerError(UniqueConstraintMessage))
              && (checked.Success? && !HasId(old(store.rows), id) ==>
                    && resp == Response(201, None, CreatedBody(checked.value, PhotoUrl(checked.value.photoPath, baseUrl)))
                    && store.rows == old(store.rows) + [StoredRow(checked.value)])
  {
    var stopped := Middleware(origin, config, body);
    if stopped.Some? {
      return stopped.value;
    }
    if upload.Rejected? {
      return ServerError(upload.message);
    }
    var file := if upload.Stored? then Some(upload.filename) else None;
    var checked := ValidateCreate(req, file, id, createdAt);
    if checked.Failure? {
      return Response(400, None, ErrorBody(checked.error));
    }
    var report := checked.value;
    var inserted := store.Insert(report);
    if inserted.Failure? {
      return ServerError(UniqueConstraintMessage);
    }
    resp := Response(201, None, CreatedBody(report, PhotoUrl(report.photoPath, baseUrl)));
  }

  // ---------------------------------------------------------------------------
  // GET /api/reports
  // ---------------------------------------------------------------------------

  /** The query string. Filters are empty when absent; `limit` and `offset`
      are what `Number.parseInt(x, 10)` yields, None for NaN. */
  datatype ListRequest = ListRequest(status: string, category: string, q: string,
                                     limit: Option<int>, offset: Option<int>)

  const DefaultLimit := 50
  const DefaultOffset := 0

  /** `Number.parseInt(x, 10) || fallback`: NaN and 0 are both falsy. */
  function OrDefault(parsed: Option<int>, fallback: int): (r: int)
    ensures parsed.None? || parsed == Some(0) ==> r == fallback
    ensures parsed.Some? && parsed.value != 0 ==> r == parsed.value
  {
    if parsed.Some? && parsed.value != 0 then parsed.value else fallback
  }

  /** The arguments the GET route passes to `listReports`. */
  function ListQuery(req: ListRequest): (query: Query)
    ensures query.limit != 0 && query.limit == OrDefault(req.limit, DefaultLimit)
    ensures query.offset == OrDefault(req.offset, DefaultOffset)
    ensures query.status == req.status && query.category == req.category && query.q == req.q
  {
    Query(req.status, req.category, req.q, OrDefault(req.limit, DefaultLimit), OrDefault(req.offset, DefaultOffset))
  }

  /** The GET /api/reports route behind the middleware: a request the
      middleware stops gets its answer; then 401 unless the operator
      authenticates, whatever the query; otherwise the listing with photo
      URLs. Without a usable `limit` at most 50 reports come back. */
  method GetReports(store: ReportTable, origin: string, body: BodyParse,
                    authorization: string, decodeBase64: string -> string,
                    config: Config, req: ListRequest, baseUrl: string) returns (resp: Response)
    ensures Middleware(origin, config, body).Some? ==> resp == Middleware(origin, config, body).value
    ensures Middleware(origin, config, body).None? && RequireAdmin(authorization, decodeBase64, config).Some? ==>
              resp == UnauthorizedResponse
    ensures Middleware(origin, config, body).None? && RequireAdmin(authorization, decodeBase64, config).None? ==>
              var query := ListQuery(req);
              var listed := Window(OrderByCreatedDesc(Select(store.rows, query)), query.offset, query.limit);
              && resp == Response(200, None, ListBody(WithPhotoUrls(listed, baseUrl)))
              && (forall x | x in listed :: x in store.rows && Matches(x, query))
              && SortedDesc(listed)
              && (req.limit.None? ==> |listed| <= DefaultLimit)
  {
    var stopped := Middleware(origin, config, body);
    if stopped.Some? {
      return stopped.value;
    }
    var denied := RequireAdmin(authorization, decodeBase64, config);
    if denied.Some? {
      return denied.value;
    }
    var rows := store.List(ListQuery(req));
    resp := Response(200, None, ListBody(WithPhotoUrls(rows, baseUrl)));
  }

  // ---------------------------------------------------------------------------
  // PATCH /api/reports/:id/status
  // ---------------------------------------------------------------------------

  /** `allowedStatuses`: the closed set of report statuses. */
  const AllowedStatuses: set<string> := {"nuova", "in_lavorazione", "chiusa"}

  /** The PATCH route behind the middleware: a request the middleware stops
      gets its answer; then 401 unless the operator authenticates; 400 for a
      status outside the allowed set; 404 when no report has the id; else
      `{ ok: true }`. The store changes only in the last case, and then only
      that report's status. The current status is never consulted, so a
      closed report can be set back to new. */
  method PatchStatus(store: ReportTable, origin: string, body: BodyParse,
                     authorization: string, decodeBase64: string -> string,
                     config: Config, id: string, status: string) returns (resp: Response)
    requires store.Valid()
    modifies store
    ensures store.Valid()
    ensures resp.status != 200 ==> store.rows == old(store.rows)
    ensures Middleware(origin, config, body).Some? ==> resp == Middleware(origin, config, body).value
    ensures Middleware(origin, config, body).None? && RequireAdmin(authorization, decodeBase64, config).Some? ==>
              resp == UnauthorizedResponse
    ensures Middleware(origin, config, body).None? && RequireAdmin(authorization, decodeBase64, config).None? ==>
              && (status !in AllowedStatuses ==> resp == Response(400, None, ErrorBody("invalid status")))
              && (status in AllowedStatuses && !HasId(old(store.rows), id) ==>
                    resp == Response(404, None, ErrorBody("report not found")))
              && (status in AllowedStatuses && HasId(old(store.rows), id) ==>
                    resp == Response(200, None, OkBody))
    ensures resp.status == 200 ==>
              && |store.rows| == |old(store.rows)|
              && forall i | 0 <= i < |store.rows| ::
                   store.rows[i] == if old(store.rows)[i].id == id then old(store.rows)[i].(status := status)
                                    else old(store.rows)[i]
  {
    var stopped := Middleware(origin, config, body);
    if stopped.Some? {
      return stopped.value;
    }
    var denied := RequireAdmin(authorization, decodeBase64, config);
    if denied.Some? {
      return denied.value;
    }
    if status !in AllowedStatuses {
      return Response(400, None, ErrorBody("invalid status"));
    }
    var ok := store.UpdateStatus(id, status);
    if !ok {
      return Response(404, None, ErrorBody("report not found"));
    }
    resp := Response(200, None, OkBody);
  }
}
