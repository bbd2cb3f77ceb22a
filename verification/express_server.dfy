/**
 * The Express backend (server.js): the whole site content kept as one JSON
 * document in a file, a shape validator for writes, and a session that is
 * either anonymous or carries `isAdmin`. Each route is a function from the
 * server state (session and file) and the request to the reply and the new
 * state. File-system results that the program cannot control (whether a
 * write succeeds) are inputs.
 */
module ExpressServer {
  import opened Wrappers
  import opened JsonValue
  import opened Password

  // ── Configuration ─────────────────────────────────────

  /** `ADMIN_USER` and `ADMIN_PASS_HASH` as the process sees them. */
  datatype Config = Config(adminUser: string, adminPassHash: PasswordHash)

  /** `process.env.X || fallback`: an unset or empty variable gives the fallback. */
  function EnvOr(v: Option<string>, fallback: string): (r: string)
    ensures v.Some? && v.value != "" ==> r == v.value
    ensures v.None? || v.value == "" ==> r == fallback
  {
    if v.Some? && v.value != "" then v.value else fallback
  }

  /** The configuration read at start-up. `passHash` is `ADMIN_PASS_HASH`
      (`None` when unset or empty); without it `ADMIN_PASS`, or the built-in
      `change-me-now`, is hashed with the start-up `salt`. */
  function ConfigFromEnv(user: Option<string>, passHash: Option<PasswordHash>, pass: Option<string>, salt: nat)
    : (r: Config)
    ensures r.adminUser == EnvOr(user, "admin")
    ensures passHash.Some? ==> r.adminPassHash == passHash.value
    ensures passHash.None? ==> forall p :: Check(r.adminPassHash, p) <==> p == EnvOr(pass, "change-me-now")
  {
    var h := if passHash.Some? then passHash.value else Hash(EnvOr(pass, "change-me-now"), salt);
    CheckHashAll(EnvOr(pass, "change-me-now"), salt);
    Config(EnvOr(user, "admin"), h)
  }

  lemma CheckHashAll(password: string, salt: nat)
    ensures forall p :: Check(Hash(password, salt), p) <==> p == password
  {
    forall p ensures Check(Hash(password, salt), p) <==> p == password {
      CheckHash(password, p, salt);
    }
  }

  /** With no variables set, the server accepts `admin` / `change-me-now`. */
  lemma DefaultCredentials(salt: nat)
    ensures ConfigFromEnv(None, None, None, salt).adminUser == "admin"
    ensures Check(ConfigFromEnv(None, None, None, salt).adminPassHash, "change-me-now")
  {
  }

  // ── State, requests and replies ───────────────────────

  /** The server-side session record; `isAdmin` is set only by a good login. */
  datatype ExpressSession = ExpressSession(isAdmin: bool)

  /** A fresh (or destroyed and re-created) session. */
  const Anonymous: ExpressSession := ExpressSession(false)

  /** `data/content.json`; `None` when it is missing or does not parse. */
  datatype Server = Server(session: ExpressSession, file: Option<Json>)

  /** `req.body` as `express.json()` leaves it: the parsed value, or one of
      the parser's rejections. A request without a JSON body is passed as
      `Parsed({})`. */
  datatype ExpressBody =
    | Parsed(json: Json)
    /** text that is not JSON: the parser's 400 */
    | Malformed
    /** a body over the 2 MB `limit`: the parser's 413 */
    | TooLarge

  /** The status of the error page the parser's rejection leads to. */
  function RejectStatus(body: ExpressBody): nat {
    if body.TooLarge? then 413 else 400
  }

  /** Whether `express.json()` lets the request through: in its default
      strict mode only a top-level object or array is accepted, and anything
      else is answered 400. */
  predicate AcceptedBody(body: ExpressBody) {
    body.Parsed? && (body.json.JObject? || body.json.JArray?)
  }

  /** A request as the router hands it to a handler, with the body the
      parser accepted. */
  datatype Request =
    | GetContent
    | Login(body: Json)
    | Logout
    | Me
    | GetAdminContent
    | PutAdminContent(content: Json)
    /** `GET /` and `GET /xyzadmin`: an HTML file sent as it is */
    | SendFile
    /** OPTIONS on a path with routes, answered by the router itself */
    | Options(allow: seq<string>)
    /** a body `express.json()` refused before any route ran, answered with
        Express's error page for the parser's status */
    | BadBody(status: nat)
    /** any method and path no route matches */
    | Unrouted

  datatype Reply =
    | Reply(status: nat, body: Json)
    /** an HTML page: a file the server sends, or one of Express's default
        error pages (unmatched route, body-parser rejection) */
    | Page(status: nat)
    /** Express's own answer to OPTIONS: 200, the `Allow` header, and the
        same list as plain text */
    | Allowed(methods: seq<string>)
    /** the handler's promise rejected and nothing is ever sent */
    | Unanswered

  datatype Result = Result(reply: Reply, server: Server)

  function ErrorBody(message: string): Json {
    JObject(map["error" := JString(message)])
  }

  const OkReply: Reply := Reply(200, JObject(map["ok" := JBool(true)]))

  // ── Validation ────────────────────────────────────────

  /** The top-level keys a written document must carry. */
  const RequiredKeys: seq<string> := ["hero", "about", "timeline", "skills", "projects", "contact"]

  /** `typeof v === 'object'`: true for `null`, arrays and objects. */
  predicate TypeofObject(v: Json) {
    v.JNull? || v.JArray? || v.JObject?
  }

  /** `isValidContentShape`: a truthy value of type object whose six required
      properties are all truthy. Empty objects and arrays pass; a missing
      key, `null`, `false`, `0` or `""` does not. */
  predicate IsValidContentShape(content: Json) {
    && JsTruthy(content)
    && TypeofObject(content)
    && JsTruthyOpt(Prop(content, "hero"))
    && JsTruthyOpt(Prop(content, "about"))
    && JsTruthyOpt(Prop(content, "timeline"))
    && JsTruthyOpt(Prop(content, "skills"))
    && JsTruthyOpt(Prop(content, "projects"))
    && JsTruthyOpt(Prop(content, "contact"))
  }

  /** The validator accepts exactly the objects whose every required key is
      present and truthy. */
  lemma ValidShapeMeaning(content: Json)
    ensures IsValidContentShape(content) <==>
      && content.JObject?
      && forall i :: 0 <= i < |RequiredKeys| ==>
           RequiredKeys[i] in content.fields && JsTruthy(content.fields[RequiredKeys[i]])
  {
    if content.JObject? && forall i :: 0 <= i < |RequiredKeys| ==>
         RequiredKeys[i] in content.fields && JsTruthy(content.fields[RequiredKeys[i]]) {
      assert RequiredKeys[0] == "hero" && RequiredKeys[5] == "contact";
      assert RequiredKeys[1] == "about" && RequiredKeys[2] == "timeline";
      assert RequiredKeys[3] == "skills" && RequiredKeys[4] == "projects";
    }
  }

  /** A document whose required keys hold only empty objects and empty arrays
      is valid: JavaScript counts both as truthy. */
  lemma EmptySectionsAreValid()
    ensures IsValidContentShape(JObject(map["hero" := EmptyObject, "about" := EmptyObject,
                                            "timeline" := JArray([]), "skills" := JArray([]),
                                            "projects" := JArray([]), "contact" := EmptyObject]))
  {
  }

  /** A document missing `contact` is invalid, whatever else it holds. */
  lemma MissingContactIsInvalid(content: Json)
    requires content.JObject? && "contact" !in content.fields
    ensures !IsValidContentShape(content)
  {
  }

  // ── Route handlers ────────────────────────────────────

  /** `requireAuth`: `None` lets the guarded handler run, `Some` is the 401
      sent instead. */
  function RequireAuth(sess: ExpressSession): (r: Option<Reply>)
    ensures r.None? <==> sess.isAdmin
    ensures r.Some? ==> r.value == Reply(401, ErrorBody("Unauthorized"))
  {
    if sess.isAdmin then None else Some(Reply(401, ErrorBody("Unauthorized")))
  }

  /** `readContent()` answered as JSON, or 500 when the file cannot be read. */
  function ReadReply(file: Option<Json>): (r: Reply)
    ensures file.Some? <==> r.Reply? && r.status == 200
    ensures file.Some? ==> r.body == file.value
  {
    match file
    case Some(content) => Reply(200, content)
    case None => Reply(500, ErrorBody("Failed to load content"))
  }

  /** `POST /api/admin/login`. The only route that sets `isAdmin`. */
  function HandleLogin(cfg: Config, s: Server, body: Json): (r: Result)
    ensures r.server.file == s.file
    ensures r.server.session.isAdmin != s.session.isAdmin ==> r.server.session.isAdmin
    ensures r.server.session.isAdmin && !s.session.isAdmin ==> r.reply == OkReply
    ensures var u := Prop(body, "username");
      var p := Prop(body, "password");
      && (!JsTruthyOpt(u) || !JsTruthyOpt(p) ==>
            r == Result(Reply(400, ErrorBody("Username and password are required")), s))
      && (JsTruthyOpt(u) && JsTruthyOpt(p) && u.value != JString(cfg.adminUser) ==>
            r == Result(Reply(401, ErrorBody("Invalid credentials")), s))
      && (JsTruthyOpt(u) && JsTruthyOpt(p) && u.value == JString(cfg.adminUser) ==>
            if !p.value.JString? then r == Result(Unanswered, s)
            else if Check(cfg.adminPassHash, p.value.s)
            then r == Result(OkReply, s.(session := ExpressSession(true)))
            else r == Result(Reply(401, ErrorBody("Invalid credentials")), s))
  {
    var username := Prop(body, "username");
    var password := Prop(body, "password");
    if !JsTruthyOpt(username) || !JsTruthyOpt(password) then
      Result(Reply(400, ErrorBody("Username and password are required")), s)
    else if username.value != JString(cfg.adminUser) then
      Result(Reply(401, ErrorBody("Invalid credentials")), s)
    else if !password.value.JString? then
      // bcrypt.compare rejects a non-string password; the async handler's
      // rejection is not caught, so no reply is sent
      Result(Unanswered, s)
    else if !Check(cfg.adminPassHash, password.value.s) then
      Result(Reply(401, ErrorBody("Invalid credentials")), s)
    else
      Result(OkReply, s.(session := ExpressSession(true)))
  }

  /** `POST /api/admin/logout`: the session is destroyed, so the next request
      starts anonymous. */
  function HandleLogout(s: Server): (r: Result)
    ensures r.server == Server(Anonymous, s.file)
    ensures r.reply == OkReply
  {
    Result(OkReply, s.(session := Anonymous))
  }

  /** `PUT /api/admin/content`: validate, then replace the whole document.
      `written` is the outcome of `writeContent`: `None` when the write
      succeeded, otherwise what the file holds after the failed attempt. */
  function HandlePut(s: Server, content: Json, written: Option<Option<Json>>): (r: Result)
    ensures r.server.session == s.session
    ensures !s.session.isAdmin ==> r == Result(Reply(401, ErrorBody("Unauthorized")), s)
    ensures s.session.isAdmin && !IsValidContentShape(content) ==>
      r == Result(Reply(400, ErrorBody("Invalid content format")), s)
    ensures s.session.isAdmin && IsValidContentShape(content) && written.None? ==>
      r == Result(OkReply, s.(file := Some(content)))
    ensures r.server.file != s.file ==> s.session.isAdmin && IsValidContentShape(content)
  {
    match RequireAuth(s.session)
    case Some(reject) => Result(reject, s)
    case None =>
      if !IsValidContentShape(content) then Result(Reply(400, ErrorBody("Invalid content format")), s)
      else match written
        case None => Result(OkReply, s.(file := Some(content)))
        case Some(left) => Result(Reply(500, ErrorBody("Failed to save content")), s.(file := left))
  }

  /** The handlers behind the router. `cfg` is the start-up configuration;
      `written` is the outcome of a file write, used only by the PUT route. */
  function Handle(cfg: Config, s: Server, req: Request, written: Option<Option<Json>>): (r: Result)
    ensures req.GetContent? || req.Me? || req.GetAdminContent? || req.SendFile? || req.Options? || req.BadBody?
            || req.Unrouted?
            ==> r.server == s
    ensures req.GetContent? ==> r.reply == ReadReply(s.file)
    ensures req.Me? ==> r.reply == Reply(200, JObject(map["authenticated" := JBool(s.session.isAdmin)]))
    ensures req.GetAdminContent? ==>
      r.reply == if s.session.isAdmin then ReadReply(s.file) else Reply(401, ErrorBody("Unauthorized"))
    ensures req.SendFile? ==> r.reply == Page(200)
    ensures req.Options? ==> r.reply == Allowed(req.allow)
    ensures req.BadBody? ==> r.reply == Page(req.status)
    ensures req.Unrouted? ==> r.reply == Page(404)
    ensures req.Login? ==> r == HandleLogin(cfg, s, req.body)
    ensures req.Logout? ==> r == HandleLogout(s)
    ensures req.PutAdminContent? ==> r == HandlePut(s, req.content, written)
  {
    match req
    case GetContent => Result(ReadReply(s.file), s)
    case Login(body) => HandleLogin(cfg, s, body)
    case Logout => HandleLogout(s)
    case Me => Result(Reply(200, JObject(map["authenticated" := JBool(s.session.isAdmin)])), s)
    case GetAdminContent =>
      (match RequireAuth(s.session)
       case Some(reject) => Result(reject, s)
       case None => Result(ReadReply(s.file), s))
    case PutAdminContent(content) => HandlePut(s, content, written)
    case SendFile => Result(Page(200), s)
    case Options(allow) => Result(Allowed(allow), s)
    case BadBody(status) => Result(Page(status), s)
    case Unrouted => Result(Page(404), s)
  }

  /** Whether a route registered with `app.get` answers `verb`: Express runs
      GET handlers for HEAD requests too. */
  predicate GetLike(verb: string) {
    verb == "GET" || verb == "HEAD"
  }

  /** The methods the routes on `path` answer, as the router lists them in
      the `Allow` header of its OPTIONS reply: in registration order, with
      HEAD after GET. A path without routes has none. */
  function AllowedMethods(path: string): seq<string> {
    if path == "/" || path == "/xyzadmin" || path == "/api/content" || path == "/api/admin/me" then ["GET", "HEAD"]
    else if path == "/api/admin/login" || path == "/api/admin/logout" then ["POST"]
    else if path == "/api/admin/content" then ["GET", "HEAD", "PUT"]
    else []
  }

  /** The route table behind `app.use(express.json())`. The body parser runs
      first for every request, so a refused body is answered 400 whatever the
      path; otherwise the method and path pick the handler. Paths are
      compared exactly (see the README for Express's looser matching). */
  function Route(verb: string, path: string, body: ExpressBody): (r: Request)
    ensures r.BadBody? <==> !AcceptedBody(body)
    ensures r.BadBody? ==> r.status == RejectStatus(body)
    ensures r.BadBody? ==> (r.status == 413 <==> body.TooLarge?)
    ensures AcceptedBody(body) ==> (r.PutAdminContent? <==> verb == "PUT" && path == "/api/admin/content")
    ensures AcceptedBody(body) ==> (r.Login? <==> verb == "POST" && path == "/api/admin/login")
    ensures AcceptedBody(body) ==> (r.Logout? <==> verb == "POST" && path == "/api/admin/logout")
    ensures r.PutAdminContent? ==> body.Parsed? && r.content == body.json
    ensures r.Login? ==> body.Parsed? && r.body == body.json
    ensures AcceptedBody(body) && verb == "OPTIONS" ==> (r.Options? <==> AllowedMethods(path) != [])
    ensures r.Options? ==> r.allow == AllowedMethods(path)
    ensures AcceptedBody(body) && !GetLike(verb) && verb != "POST" && verb != "PUT" && verb != "OPTIONS"
            ==> r.Unrouted?
    ensures AcceptedBody(body) && verb == "PUT" && path != "/api/admin/content" ==> r.Unrouted?
  {
    if !AcceptedBody(body) then BadBody(RejectStatus(body))
    else if GetLike(verb) && (path == "/" || path == "/xyzadmin") then SendFile
    else if GetLike(verb) && path == "/api/content" then GetContent
    else if verb == "POST" && path == "/api/admin/login" then Login(body.json)
    else if verb == "POST" && path == "/api/admin/logout" then Logout
    else if GetLike(verb) && path == "/api/admin/content" then GetAdminContent
    else if verb == "PUT" && path == "/api/admin/content" then PutAdminContent(body.json)
    else if GetLike(verb) && path == "/api/admin/me" then Me
    else if verb == "OPTIONS" && AllowedMethods(path) != [] then Options(AllowedMethods(path))
    else Unrouted
  }

  // ── Properties across routes ──────────────────────────

  /** The session is a two-state machine: only a successful login makes it
      admin, and only logout makes an admin session anonymous. */
  lemma SessionTransitions(cfg: Config, s: Server, req: Request, written: Option<Option<Json>>)
    ensures var r := Handle(cfg, s, req, written);
      && (!s.session.isAdmin && r.server.session.isAdmin ==> req.Login? && r.reply == OkReply)
      && (s.session.isAdmin && !r.server.session.isAdmin ==> req.Logout?)
  {
  }

  /** An anonymous session reaching either guarded route gets 401 and
      changes nothing. */
  lemma AnonymousGuardedNoEffect(cfg: Config, s: Server, req: Request, written: Option<Option<Json>>)
    requires !s.session.isAdmin && (req.GetAdminContent? || req.PutAdminContent?)
    ensures Handle(cfg, s, req, written) == Result(Reply(401, ErrorBody("Unauthorized")), s)
  {
  }

  /** Express answers a HEAD request with the handler of the matching GET. */
  lemma HeadRoutedAsGet(path: string, body: ExpressBody)
    ensures Route("HEAD", path, body) == Route("GET", path, body)
    ensures AcceptedBody(body) && path == "/api/admin/content" ==> Route("HEAD", path, body).GetAdminContent?
  {
  }

  /** The `Allow` list of a path names exactly the other methods the router
      hands to a handler there. */
  lemma AllowListsRoutes(verb: string, path: string, body: ExpressBody)
    requires AcceptedBody(body) && verb != "OPTIONS"
    ensures verb in AllowedMethods(path) <==> !Route(verb, path, body).Unrouted?
  {
  }

  /** Only an authorised PUT of a valid document changes the file. */
  lemma FileChangesOnlyByValidPut(cfg: Config, s: Server, req: Request, written: Option<Option<Json>>)
    ensures Handle(cfg, s, req, written).server.file != s.file ==>
      req.PutAdminContent? && s.session.isAdmin && IsValidContentShape(req.content)
  {
  }

  /** Seen from the wire: a body the parser refuses changes nothing on any
      path; only `PUT /api/admin/content` by an admin can change the file, and
      only the two POST routes of the session can change the session. */
  lemma RoutedEffects(cfg: Config, s: Server, verb: string, path: string, body: ExpressBody,
                      written: Option<Option<Json>>)
    ensures var r := Handle(cfg, s, Route(verb, path, body), written);
      && (!AcceptedBody(body) ==> r == Result(Page(if body.TooLarge? then 413 else 400), s))
      && (r.server.file != s.file ==> verb == "PUT" && path == "/api/admin/content" && s.session.isAdmin)
      && (r.server.session != s.session ==>
            verb == "POST" && (path == "/api/admin/login" || path == "/api/admin/logout"))
  {
    var req := Route(verb, path, body);
    FileChangesOnlyByValidPut(cfg, s, req, written);
  }

  /** A successful PUT replaces the whole document: the public GET that
      follows returns exactly the body, with nothing merged from before. */
  lemma PutThenGet(cfg: Config, s: Server, doc: Json)
    requires s.session.isAdmin && IsValidContentShape(doc)
    ensures var put := Handle(cfg, s, PutAdminContent(doc), None);
      && put.reply == OkReply
      && Handle(cfg, put.server, GetContent, None).reply == Reply(200, doc)
  {
  }

  /** After logout, `/api/admin/me` reports false and both guarded routes
      answer 401, whatever document a PUT carries. */
  lemma LogoutLocks(cfg: Config, s: Server, doc: Json, written: Option<Option<Json>>)
    ensures var out := Handle(cfg, s, Logout, written).server;
      && Handle(cfg, out, Me, written).reply == Reply(200, JObject(map["authenticated" := JBool(false)]))
      && Handle(cfg, out, GetAdminContent, written).reply == Reply(401, ErrorBody("Unauthorized"))
      && Handle(cfg, out, PutAdminContent(doc), written) == Result(Reply(401, ErrorBody("Unauthorized")), out)
  {
  }

  /** A login with the configured username and its password opens the gate;
      `me` then reports it. */
  lemma LoginThenMe(cfg: Config, s: Server, password: string)
    requires Check(cfg.adminPassHash, password) && cfg.adminUser != "" && password != ""
    ensures var body := JObject(map["username" := JString(cfg.adminUser), "password" := JString(password)]);
      var in_ := Handle(cfg, s, Login(body), None).server;
      && in_.session.isAdmin
      && Handle(cfg, in_, Me, None).reply == Reply(200, JObject(map["authenticated" := JBool(true)]))
  {
  }

  /** `admin` / `wrong` against the default configuration: 401, still anonymous. */
  lemma WrongPasswordRejected(s: Server, salt: nat)
    requires !s.session.isAdmin
    ensures var cfg := ConfigFromEnv(None, None, None, salt);
      var body := JObject(map["username" := JString("admin"), "password" := JString("wrong")]);
      var r := Handle(cfg, s, Login(body), None);
      r.reply == Reply(401, ErrorBody("Invalid credentials")) && !r.server.session.isAdmin
  {
  }
}
