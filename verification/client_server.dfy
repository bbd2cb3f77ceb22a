/**
 * The editor's `saveSection(name)` talking to each backend: the request it
 * sends (`PUT /api/content/<name>` with `JSON.stringify(siteContent[name])`),
 * what the backend does with it, and how `await res.json()` reads the answer
 * back into the editor.
 */
module ClientServer {
  import opened Wrappers
  import opened JsonValue
  import opened Models
  import FlaskApp
  import ExpressServer
  import opened AdminEditor

  /** The request body as Flask's `get_json(force=True)` sees it: the
      stringified section, or a parse failure when `JSON.stringify` gave
      `undefined` and nothing was sent. */
  function FlaskBody(body: Option<Json>): (r: FlaskApp.Body)
    ensures body.Some? <==> r.Parsed?
    ensures body.Some? ==> r.json == body.value
  {
    match body
    case Some(v) => FlaskApp.Parsed(v)
    case None => FlaskApp.Malformed("Failed to decode JSON object")
  }

  /** `await res.json()` on a Flask response: a JSON body is read; an HTML
      page (404, Werkzeug's 400) or the login page behind a redirect makes
      `res.json()` throw, which the `catch` turns into a failed save. */
  function FlaskReply(resp: FlaskApp.Response): (r: SaveReply)
    ensures r.Answered? <==> resp.JsonReply?
    ensures r.Answered? ==> r.body == resp.body
  {
    match resp
    case JsonReply(_, body) => Answered(body)
    case _ => Unreadable
  }

  /** One `saveSection(name)` against the Flask backend: the editor after
      the reply, and the database after the request. */
  function SaveToFlask(e: Editor, name: string, db: Db, sess: FlaskApp.Session): (r: (Editor, Db))
  {
    var out := FlaskApp.ApiUpdateContent(db, sess, name, FlaskBody(SaveBody(e, name)));
    (SaveSection(e, name, FlaskReply(out.response)), out.db)
  }

  /** The happy path: a logged-in save of a whitelisted section the mirror
      holds stores exactly the mirror's value, leaves every other section and
      the accounts alone, and takes only `name` out of the dirty record. */
  lemma SaveToFlaskStores(e: Editor, name: string, db: Db, sess: FlaskApp.Session)
    requires FlaskApp.LoggedIn(sess) && name in FlaskApp.Sections && name in e.content
    ensures var (e', db') := SaveToFlask(e, name, db, sess);
      && GetAllContent(db'.content) == GetAllContent(db.content)[name := e.content[name]]
      && (forall s :: s != name ==> GetSection(db'.content, s) == GetSection(db.content, s))
      && db'.admins == db.admins
      && e'.content == e.content
      && (forall t :: t in e'.dirty <==> t in e.dirty && t != name)
  {
    var out := FlaskApp.ApiUpdateContent(db, sess, name, FlaskBody(SaveBody(e, name)));
    assert out.response == FlaskApp.JsonReply(200, FlaskApp.OkBody);
    assert Prop(FlaskApp.OkBody, "ok") == Some(JBool(true));
  }

  /** A save after the session has lapsed is answered 401 in JSON with
      `ok: false`: nothing is stored and the section stays dirty. */
  lemma SaveToFlaskLoggedOut(e: Editor, name: string, db: Db, sess: FlaskApp.Session)
    requires !FlaskApp.LoggedIn(sess)
    ensures SaveToFlask(e, name, db, sess) == (e, db)
  {
    assert Prop(FlaskApp.UnauthorizedBody, "ok") == Some(JBool(false));
  }

  /** A section the mirror lacks sends no body; Flask answers with its HTML
      400 page, so nothing is stored and the editor is unchanged. */
  lemma SaveMissingSection(e: Editor, name: string, db: Db, sess: FlaskApp.Session)
    requires name !in e.content
    ensures SaveToFlask(e, name, db, sess) == (e, db)
  {
    assert Prop(FlaskApp.UnauthorizedBody, "ok") == Some(JBool(false));
  }

  /** A name off the whitelist gets the HTML 404 page: nothing changes. */
  lemma SaveUnknownSection(e: Editor, name: string, db: Db, sess: FlaskApp.Session)
    requires FlaskApp.LoggedIn(sess) && name !in FlaskApp.Sections
    ensures SaveToFlask(e, name, db, sess) == (e, db)
  {
  }

  /** `await res.json()` on an Express reply: a JSON body is read, an HTML
      page throws; a request that is never answered never settles
      (`None`), so `saveSection` never reaches its bookkeeping. */
  function ExpressReply(reply: ExpressServer.Reply): (r: Option<SaveReply>)
    ensures r == None <==> reply.Unanswered?
    ensures reply.Reply? ==> r == Some(Answered(reply.body))
    ensures reply.Page? || reply.Allowed? ==> r == Some(Unreadable)
  {
    match reply
    case Reply(_, body) => Some(Answered(body))
    case Page(_) => Some(Unreadable)
    case Allowed(_) => Some(Unreadable)
    case Unanswered => None
  }

  /** One `saveSection(name)` against the Express backend. */
  function SaveToExpress(cfg: ExpressServer.Config, s: ExpressServer.Server, e: Editor, name: string)
    : (Editor, ExpressServer.Server)
  {
    var body := match SaveBody(e, name)
                case Some(v) => ExpressServer.Parsed(v)
                case None => ExpressServer.Parsed(JObject(map[]));
    var req := ExpressServer.Route("PUT", "/api/content/" + name, body);
    var out := ExpressServer.Handle(cfg, s, req, None);
    match ExpressReply(out.reply)
    case Some(reply) => (SaveSection(e, name, reply), out.server)
    case None => (e, out.server)
  }

  /** The Express backend has no per-section route: a save from the editor
      meets the 404 page, or the body parser's 400 page when the section's
      value is not an object or array. Either way no section is ever saved
      there and the server is untouched, whoever is logged in. */
  lemma SaveToExpressNeverSaves(cfg: ExpressServer.Config, s: ExpressServer.Server, e: Editor, name: string)
    ensures SaveToExpress(cfg, s, e, name) == (e, s)
  {
    assert "/api/content/" + name != "/api/admin/content" by {
      var p := "/api/content/" + name;
      assert p[5] == 'c' && "/api/admin/content"[5] == 'a';
    }
  }
}
