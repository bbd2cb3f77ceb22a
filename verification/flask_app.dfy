/**
 * The HTTP handlers of the Flask backend (app.py) over the database of
 * `Models`: the section whitelist, the `login_required` gate, login and
 * logout, per-section read and upsert, the whole-content read, password
 * change and bulk import. Each handler is a function from the database, the
 * session and the request to the response and the new database.
 */
module FlaskApp {
  import opened Wrappers
  import opened JsonValue
  import opened Models
  import T = Table

  /** `SECTIONS`: the only section names the API reads or writes. */
  const Sections: seq<string> :=
    ["settings", "hero", "about", "timeline", "skills", "github", "nowplaying", "projects", "contact"]

  /** The signed session cookie; `admin` is the logged-in username, if any. */
  datatype Session = Session(admin: Option<string>)

  /** `session.get("admin")` is truthy: present and not the empty string. */
  predicate LoggedIn(sess: Session) {
    sess.admin.Some? && sess.admin.value != ""
  }

  /** `request.get_json(force=True)`: a parsed value, or the parse failure and
      its message. */
  datatype Body = Parsed(json: Json) | Malformed(message: string)

  datatype Response =
    | JsonReply(status: nat, body: Json)
    | Redirect(endpoint: string)
    /** admin/login.html rendered with an optional error line */
    | LoginForm(error: Option<string>)
    /** an HTML error page: 404.html, or Werkzeug's own 400 page */
    | ErrorPage(status: nat)

  datatype Outcome = Outcome(response: Response, db: Db)

  const UnauthorizedBody: Json := JObject(map["ok" := JBool(false), "error" := JString("Unauthorized")])
  const OkBody: Json := JObject(map["ok" := JBool(true)])
  /** The body the registered 500 handler sends for an uncaught exception. */
  const ServerError: Response := JsonReply(500, JObject(map["error" := JString("Internal server error")]))
  const ShortPasswordBody: Json :=
    JObject(map["ok" := JBool(false), "error" := JString("Password must be at least 4 characters")])
  const NotAnObjectBody: Json :=
    JObject(map["ok" := JBool(false), "error" := JString("Invalid format — expected JSON object")])

  /** Whether a rejected request gets JSON rather than a redirect:
      `request.is_json or request.path.startswith("/api/")`. */
  predicate WantsJson(path: string, isJson: bool) {
    isJson || (|path| >= 5 && path[..5] == "/api/")
  }

  /** Every route of the JSON API lives under `/api/`, so its rejections are
      JSON whatever the request's type; the dashboard's page request is
      redirected to the login form instead. */
  lemma ApiRoutesWantJson(section: string, isJson: bool)
    ensures WantsJson("/api/content/" + section, isJson)
    ensures WantsJson("/api/content", isJson)
    ensures WantsJson("/api/change-password", isJson)
    ensures WantsJson("/api/import", isJson)
    ensures !WantsJson("/admin", false)
  {
    assert ("/api/content/" + section)[..5] == "/api/";
    assert "/admin"[..5] != "/api/" by {
      assert "/admin"[2] == 'd';
    }
  }

  /** `login_required`: `None` lets the wrapped handler run, `Some` is the reply
      sent instead of running it. */
  function LoginRequired(sess: Session, wantsJson: bool): (r: Option<Response>)
    ensures r.None? <==> LoggedIn(sess)
    ensures r.Some? && wantsJson ==> r.value == JsonReply(401, UnauthorizedBody)
    ensures r.Some? && !wantsJson ==> r.value == Redirect("admin_login")
  {
    if LoggedIn(sess) then None
    else if wantsJson then Some(JsonReply(401, UnauthorizedBody))
    else Some(Redirect("admin_login"))
  }

  // ── Auth routes ───────────────────────────────────────

  /** GET shows the form; POST carries the form fields, each possibly missing. */
  datatype LoginRequest = ShowForm | Submit(username: Option<string>, password: Option<string>)

  datatype LoginResult = LoginResult(response: Response, session: Session)

  /** `admin_login`: sets `session["admin"]` exactly when `verify_admin` accepts
      the submitted pair; otherwise the session is untouched. */
  function AdminLogin(db: Db, sess: Session, req: LoginRequest): (r: LoginResult)
    ensures req.ShowForm? ==> r == LoginResult(LoginForm(None), sess)
    ensures req.Submit? ==>
      var u := req.username.GetOr("");
      var p := req.password.GetOr("");
      if VerifyAdmin(db.admins, u, p)
      then r.session == Session(Some(u)) && r.response == Redirect("admin_dashboard")
      else r.session == sess && r.response == LoginForm(Some("Invalid credentials"))
  {
    match req
    case ShowForm => LoginResult(LoginForm(None), sess)
    case Submit(username, password) =>
      var u := username.GetOr("");
      if VerifyAdmin(db.admins, u, password.GetOr(""))
      then LoginResult(Redirect("admin_dashboard"), Session(Some(u)))
      else LoginResult(LoginForm(Some("Invalid credentials")), sess)
  }

  /** `admin_logout`: drop the flag, whatever it was. */
  function AdminLogout(sess: Session): (r: LoginResult)
    ensures !LoggedIn(r.session) && r.session.admin.None?
    ensures r.response == Redirect("admin_login")
  {
    LoginResult(Redirect("admin_login"), Session(None))
  }

  // ── Content API ───────────────────────────────────────

  /** `GET /api/content/<name>`: read-only; the stored value, or `{}` when the
      section was never stored or holds a Python-falsy value (`data or {}`). */
  function ApiGetContent(db: Db, sess: Session, name: string): (r: Outcome)
    ensures r.db == db
    ensures !LoggedIn(sess) ==> r.response == JsonReply(401, UnauthorizedBody)
    ensures LoggedIn(sess) && name !in Sections ==> r.response == ErrorPage(404)
    ensures LoggedIn(sess) && name in Sections ==>
      match GetSection(db.content, name)
      case None => r.response == JsonReply(200, EmptyObject)
      case Some(v) => r.response == JsonReply(200, if PyTruthy(v) then v else EmptyObject)
  {
    match LoginRequired(sess, true)
    case Some(reject) => Outcome(reject, db)
    case None =>
      if name !in Sections then Outcome(ErrorPage(404), db)
      else
        var data := GetSection(db.content, name);
        var shown := if data.Some? && PyTruthy(data.value) then data.value else EmptyObject;
        Outcome(JsonReply(200, shown), db)
  }

  /** `PUT /api/content/<name>`: replaces exactly that section with the body. */
  function ApiUpdateContent(db: Db, sess: Session, name: string, body: Body): (r: Outcome)
    ensures !LoggedIn(sess) ==> r == Outcome(JsonReply(401, UnauthorizedBody), db)
    ensures LoggedIn(sess) && name !in Sections ==> r == Outcome(ErrorPage(404), db)
    ensures LoggedIn(sess) && name in Sections && body.Malformed? ==> r == Outcome(ErrorPage(400), db)
    ensures LoggedIn(sess) && name in Sections && body.Parsed? ==>
      && r.response == JsonReply(200, OkBody)
      && r.db.admins == db.admins
      && GetAllContent(r.db.content) == GetAllContent(db.content)[name := body.json]
      && forall s :: s != name ==> GetSection(r.db.content, s) == GetSection(db.content, s)
  {
    match LoginRequired(sess, true)
    case Some(reject) => Outcome(reject, db)
    case None =>
      if name !in Sections then Outcome(ErrorPage(404), db)
      else match body
        case Malformed(_) => Outcome(ErrorPage(400), db)
        case Parsed(data) => Outcome(JsonReply(200, OkBody), db.(content := SetSection(db.content, name, data)))
  }

  /** A section read back through the API after an accepted write is the
      written value, as long as it is Python-truthy (`data or {}` turns an
      empty list or dict, `0`, `""`, `false` and `null` into `{}`). */
  lemma UpdateThenGet(db: Db, sess: Session, name: string, value: Json)
    requires LoggedIn(sess) && name in Sections
    ensures ApiGetContent(ApiUpdateContent(db, sess, name, Parsed(value)).db, sess, name).response
            == JsonReply(200, if PyTruthy(value) then value else EmptyObject)
  {
  }

  /** A write through the per-section route shows up in the whole-content
      read as exactly that section rebound; every other section is as before. */
  lemma UpdateThenGetAll(db: Db, sess: Session, name: string, value: Json)
    requires LoggedIn(sess) && name in Sections
    ensures ApiGetAllContent(ApiUpdateContent(db, sess, name, Parsed(value)).db, sess).response
            == JsonReply(200, JObject(GetAllContent(db.content)[name := value]))
  {
  }

  /** `GET /api/content`: the whole table as one object. */
  function ApiGetAllContent(db: Db, sess: Session): (r: Outcome)
    ensures r.db == db
    ensures !LoggedIn(sess) ==> r.response == JsonReply(401, UnauthorizedBody)
    ensures LoggedIn(sess) ==> r.response.JsonReply? && r.response.status == 200
    ensures LoggedIn(sess) ==> r.response.body == JObject(GetAllContent(db.content))
  {
    match LoginRequired(sess, true)
    case Some(reject) => Outcome(reject, db)
    case None => Outcome(JsonReply(200, JObject(GetAllContent(db.content))), db)
  }

  /** Python's `len()` on a parsed value; `None` where `len` raises TypeError. */
  function PyLen(v: Json): (r: Option<nat>)
    ensures v.JString? ==> r == Some(|v.s|)
    ensures v.JArray? ==> r == Some(|v.items|)
    ensures v.JObject? ==> r == Some(|v.fields|)
    ensures v.JNull? || v.JBool? || v.JNumber? ==> r.None?
  {
    match v
    case JString(s) => Some(|s|)
    case JArray(xs) => Some(|xs|)
    case JObject(m) => Some(|m|)
    case _ => None
  }

  /** `POST /api/change-password`: at least four characters, else 400 and no
      write; the request can only reach the table for the logged-in user. */
  function ApiChangePassword(db: Db, sess: Session, body: Body, salt: nat): (r: Outcome)
    ensures r.db.content == db.content
    ensures !LoggedIn(sess) ==> r == Outcome(JsonReply(401, UnauthorizedBody), db)
    ensures LoggedIn(sess) && body.Parsed? && body.json.JObject? ==>
      var pw := if "new_password" in body.json.fields then body.json.fields["new_password"] else JString("");
      && (pw.JString? && |pw.s| < 4 ==> r == Outcome(JsonReply(400, ShortPasswordBody), db))
      && ((pw.JArray? || pw.JObject?) && PyLen(pw).value < 4 ==> r == Outcome(JsonReply(400, ShortPasswordBody), db))
      && ((pw.JArray? || pw.JObject?) && PyLen(pw).value >= 4 ==> r == Outcome(ServerError, db))
      && (pw.JNull? || pw.JBool? || pw.JNumber? ==> r == Outcome(ServerError, db))
      && (pw.JString? && |pw.s| >= 4 ==>
            && r.response == JsonReply(200, OkBody)
            && (sess.admin.value in T.Keys(db.admins) ==> VerifyAdmin(r.db.admins, sess.admin.value, pw.s))
            && (forall u :: u != sess.admin.value ==> T.Select(r.db.admins, u) == T.Select(db.admins, u)))
    ensures r.response != JsonReply(200, OkBody) ==> r.db == db
    ensures LoggedIn(sess) && sess.admin.value !in T.Keys(db.admins) ==> r.db == db
  {
    match LoginRequired(sess, true)
    case Some(reject) => Outcome(reject, db)
    case None =>
      match body
      case Malformed(_) => Outcome(ErrorPage(400), db)
      case Parsed(data) =>
        if !data.JObject? then Outcome(ServerError, db)
        else
          var pw := if "new_password" in data.fields then data.fields["new_password"] else JString("");
          match PyLen(pw)
          case None => Outcome(ServerError, db)
          case Some(n) =>
            if n < 4 then Outcome(JsonReply(400, ShortPasswordBody), db)
            else if !pw.JString? then Outcome(ServerError, db)
            else
              var (admins, _) := ChangeAdminPassword(db.admins, sess.admin.value, pw.s, salt);
              Outcome(JsonReply(200, OkBody), db.(admins := admins))
  }

  /** The entries `api_import` writes: names on the whitelist (`Sections`)
      bound to JSON objects. */
  function Importable(fields: map<string, Json>, allowed: seq<string>): (r: map<string, Json>)
    ensures forall s :: s in r <==> s in fields && s in allowed && fields[s].JObject?
    ensures forall s :: s in r ==> r[s] == fields[s]
  {
    ImportableAmong(fields, allowed, fields.Keys)
  }

  /** The importable entries among the keys `seen`. */
  function ImportableAmong(fields: map<string, Json>, allowed: seq<string>, seen: set<string>): map<string, Json> {
    map s | s in fields && s in seen && s in allowed && fields[s].JObject? :: fields[s]
  }

  /** One pass of the import loop's body on key `s`: an importable entry is
      upserted and counted, anything else is skipped. */
  function ImportOne(t: ContentTable, n: nat, fields: map<string, Json>, allowed: seq<string>, s: string)
    : (ContentTable, nat)
  {
    if s in fields && s in allowed && fields[s].JObject? then (SetSection(t, s, fields[s]), n + 1)
    else (t, n)
  }

  /** The import loop after visiting the keys `visited` in order: the table it
      has built and the count it has reached. */
  function ImportFold(t: ContentTable, fields: map<string, Json>, allowed: seq<string>, visited: seq<string>)
    : (ContentTable, nat)
  {
    if visited == [] then (t, 0)
    else
      var (t', n) := ImportFold(t, fields, allowed, visited[..|visited| - 1]);
      ImportOne(t', n, fields, allowed, visited[|visited| - 1])
  }

  predicate Distinct(xs: seq<string>) {
    forall i, j :: 0 <= i < j < |xs| ==> xs[i] != xs[j]
  }

  function Elems(xs: seq<string>): set<string> {
    set x | x in xs
  }

  lemma UnionUpdate(a: map<string, Json>, b: map<string, Json>, k: string, v: Json)
    ensures (a + b)[k := v] == a + b[k := v]
  {
  }

  lemma AmongStep(fields: map<string, Json>, allowed: seq<string>, seen: set<string>, s: string)
    requires s in fields && s !in seen
    ensures s in allowed && fields[s].JObject? ==>
      ImportableAmong(fields, allowed, seen + {s}) == ImportableAmong(fields, allowed, seen)[s := fields[s]]
    ensures !(s in allowed && fields[s].JObject?) ==>
      ImportableAmong(fields, allowed, seen + {s}) == ImportableAmong(fields, allowed, seen)
    ensures s !in ImportableAmong(fields, allowed, seen)
  {
  }

  lemma SizeAfterAdd(m: map<string, Json>, k: string, v: Json)
    requires k !in m
    ensures |m[k := v]| == |m| + 1
  {
    assert m[k := v].Keys == m.Keys + {k};
  }

  /** Whatever order the keys are visited in, the loop has written exactly the
      importable entries seen so far and counted each once. */
  lemma {:induction false} ImportFoldMeaning(t: ContentTable, fields: map<string, Json>, allowed: seq<string>,
                                             visited: seq<string>)
    requires Distinct(visited) && forall k :: k in visited ==> k in fields
    ensures GetAllContent(ImportFold(t, fields, allowed, visited).0)
            == GetAllContent(t) + ImportableAmong(fields, allowed, Elems(visited))
    ensures ImportFold(t, fields, allowed, visited).1 == |ImportableAmong(fields, allowed, Elems(visited))|
  {
    if visited == [] {
      assert ImportableAmong(fields, allowed, {}) == map[];
    } else {
      var init := visited[..|visited| - 1];
      var s := visited[|visited| - 1];
      DistinctSnoc(init, s);
      assert visited == init + [s];
      ImportFoldMeaning(t, fields, allowed, init);
      var (t', n) := ImportFold(t, fields, allowed, init);
      var before := ImportableAmong(fields, allowed, Elems(init));
      AmongStep(fields, allowed, Elems(init), s);
      if s in allowed && fields[s].JObject? {
        UnionUpdate(GetAllContent(t), before, s, fields[s]);
        SizeAfterAdd(before, s, fields[s]);
      }
    }
  }

  lemma DistinctSnoc(xs: seq<string>, x: string)
    requires Distinct(xs + [x])
    ensures Distinct(xs) && x !in Elems(xs) && Elems(xs + [x]) == Elems(xs) + {x}
  {
    var ys := xs + [x];
    forall i, j | 0 <= i < j < |xs| ensures xs[i] != xs[j] {
      assert xs[i] == ys[i] && xs[j] == ys[j];
    }
    forall j | 0 <= j < |xs| ensures xs[j] != x {
      assert xs[j] == ys[j] && ys[|xs|] == x;
    }
  }

  lemma AmongAll(fields: map<string, Json>, allowed: seq<string>, visited: seq<string>)
    requires forall k :: k in fields ==> k in visited
    ensures ImportableAmong(fields, allowed, Elems(visited)) == Importable(fields, allowed)
  {
  }

  /** Where the import loop stands: `visited` holds, in order and once each,
      the keys taken out of `pending`, and `(r, imported)` is what the loop
      has built from them. */
  predicate ImportProgress(content: ContentTable, fields: map<string, Json>, allowed: seq<string>,
                           pending: set<string>, visited: seq<string>, r: ContentTable, imported: nat)
  {
    && pending <= fields.Keys
    && (forall k :: k in visited ==> k in fields && k !in pending)
    && (forall k :: k in fields ==> k in pending || k in visited)
    && Distinct(visited)
    && (r, imported) == ImportFold(content, fields, allowed, visited)
  }

  lemma ImportProgressStep(content: ContentTable, fields: map<string, Json>, allowed: seq<string>,
                           pending: set<string>, visited: seq<string>, r: ContentTable, imported: nat, s: string)
    requires ImportProgress(content, fields, allowed, pending, visited, r, imported) && s in pending
    ensures var (r', imported') := ImportFold(content, fields, allowed, visited + [s]);
      ImportProgress(content, fields, allowed, pending - {s}, visited + [s], r', imported')
  {
    DistinctAppend(visited, s);
    VisitStep(fields.Keys, pending, visited, s);
  }

  lemma DistinctAppend(xs: seq<string>, x: string)
    requires Distinct(xs) && x !in xs
    ensures Distinct(xs + [x])
  {
    var ys := xs + [x];
    forall i, j | 0 <= i < j < |ys| ensures ys[i] != ys[j] {
      assert ys[i] == xs[i];
    }
  }

  /** Moving `s` from `pending` to the end of `visited` keeps the two a
      partition of `keys`. */
  lemma VisitStep(keys: set<string>, pending: set<string>, visited: seq<string>, s: string)
    requires pending <= keys && s in pending
    requires forall k :: k in visited ==> k in keys && k !in pending
    requires forall k :: k in keys ==> k in pending || k in visited
    ensures pending - {s} <= keys
    ensures forall k :: k in visited + [s] ==> k in keys && k !in pending - {s}
    ensures forall k :: k in keys ==> k in pending - {s} || k in visited + [s]
  {
    var vs := visited + [s];
    forall k | k in vs ensures k in keys && k !in pending - {s} {
      if k != s {
        assert k in visited;
      }
    }
    forall k | k in keys ensures k in pending - {s} || k in vs {
      if k == s {
        assert vs[|visited|] == s;
      }
    }
  }

  lemma ImportFoldSnoc(t: ContentTable, fields: map<string, Json>, allowed: seq<string>, visited: seq<string>, s: string)
    ensures var (t', n) := ImportFold(t, fields, allowed, visited);
      ImportFold(t, fields, allowed, visited + [s]) == ImportOne(t', n, fields, allowed, s)
  {
    assert (visited + [s])[..|visited|] == visited;
  }

  /** The loop of `api_import`: upsert every importable entry and count them.
      The keys are visited in an unspecified order, which the result does not
      depend on. */
  method ImportEntries(content: ContentTable, fields: map<string, Json>, allowed: seq<string>)
    returns (r: ContentTable, imported: nat)
    ensures imported == |Importable(fields, allowed)|
    ensures GetAllContent(r) == GetAllContent(content) + Importable(fields, allowed)
  {
    var pending := fields.Keys;
    ghost var visited: seq<string> := [];
    r := content;
    imported := 0;
    while pending != {}
      invariant ImportProgress(content, fields, allowed, pending, visited, r, imported)
      decreases pending
    {
      var s :| s in pending;
      ImportProgressStep(content, fields, allowed, pending, visited, r, imported, s);
      ImportFoldSnoc(content, fields, allowed, visited, s);
      var next := ImportOne(r, imported, fields, allowed, s);
      r, imported := next.0, next.1;
      pending := pending - {s};
      visited := visited + [s];
    }
    ImportFoldMeaning(content, fields, allowed, visited);
    AmongAll(fields, allowed, visited);
  }

  /** `POST /api/import`: a non-object payload is refused with 400 and nothing
      written; otherwise exactly the importable entries are written and counted. */
  method ApiImport(db: Db, sess: Session, body: Body) returns (r: Outcome)
    ensures !LoggedIn(sess) ==> r == Outcome(JsonReply(401, UnauthorizedBody), db)
    ensures LoggedIn(sess) && body.Malformed? ==>
      r == Outcome(JsonReply(400, JObject(map["ok" := JBool(false), "error" := JString(body.message)])), db)
    ensures LoggedIn(sess) && body.Parsed? && !body.json.JObject? ==>
      r == Outcome(JsonReply(400, NotAnObjectBody), db)
    ensures LoggedIn(sess) && body.Parsed? && body.json.JObject? ==>
      && r.response == JsonReply(200, JObject(map["ok" := JBool(true),
                                                  "imported" := JNumber(|Importable(body.json.fields, Sections)| as real)]))
      && r.db.admins == db.admins
      && GetAllContent(r.db.content) == GetAllContent(db.content) + Importable(body.json.fields, Sections)
  {
    match LoginRequired(sess, true)
    case Some(reject) =>
      r := Outcome(reject, db);
    case None =>
      match body
      case Malformed(message) =>
        r := Outcome(JsonReply(400, JObject(map["ok" := JBool(false), "error" := JString(message)])), db);
      case Parsed(data) =>
        if !data.JObject? {
          r := Outcome(JsonReply(400, NotAnObjectBody), db);
        } else {
          var content, imported := ImportEntries(db.content, data.fields, Sections);
          r := Outcome(JsonReply(200, JObject(map["ok" := JBool(true), "imported" := JNumber(imported as real)])),
                       db.(content := content));
        }
  }

  // ── Gate lemmas ───────────────────────────────────────

  /** Logging in with the seeded credentials opens the gate; a failed attempt
      leaves an anonymous session anonymous. */
  lemma LoginOpensGateOnlyOnSuccess(db: Db, sess: Session, username: string, password: string)
    requires !LoggedIn(sess)
    ensures var r := AdminLogin(db, sess, Submit(Some(username), Some(password)));
      LoggedIn(r.session) <==> VerifyAdmin(db.admins, username, password) && username != ""
  {
  }

  /** Without a logged-in admin every JSON API route answers 401 in JSON and
      leaves the database as it was, whatever the request. */
  lemma AnonymousApiRefused(db: Db, sess: Session, name: string, body: Body, salt: nat)
    requires !LoggedIn(sess)
    ensures ApiGetContent(db, sess, name) == Outcome(JsonReply(401, UnauthorizedBody), db)
    ensures ApiUpdateContent(db, sess, name, body) == Outcome(JsonReply(401, UnauthorizedBody), db)
    ensures ApiGetAllContent(db, sess) == Outcome(JsonReply(401, UnauthorizedBody), db)
    ensures ApiChangePassword(db, sess, body, salt) == Outcome(JsonReply(401, UnauthorizedBody), db)
  {
  }

  /** After logout every JSON API route refuses with 401 and writes nothing. */
  lemma LogoutLocksApi(db: Db, sess: Session, name: string, body: Body, salt: nat)
    ensures var s := AdminLogout(sess).session;
      && ApiGetContent(db, s, name) == Outcome(JsonReply(401, UnauthorizedBody), db)
      && ApiUpdateContent(db, s, name, body) == Outcome(JsonReply(401, UnauthorizedBody), db)
      && ApiGetAllContent(db, s) == Outcome(JsonReply(401, UnauthorizedBody), db)
      && ApiChangePassword(db, s, body, salt) == Outcome(JsonReply(401, UnauthorizedBody), db)
  {
  }
}
