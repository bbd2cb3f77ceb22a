# Portfolio CMS — a Dafny model

This project models the core of a single-owner portfolio site. The site's
content is one JSON document made of named sections (`settings`, `hero`,
`about`, `timeline`, `skills`, `github`, `nowplaying`, `projects`,
`contact`). An admin edits that document in the browser and saves it back to
the server. Two server implementations exist, and both are modelled:

- **The Flask backend** (`app.py`, `models.py`). Two SQLite tables are
  modelled as keyed row sequences with a UNIQUE key:
  - `admin_users`, which holds salted password hashes;
  - `site_content`, which holds one JSON value per section.

  The model covers `login_required`, the session-based admin login and
  logout, and the per-section get and put. It also covers the whole-document
  get, password change and import.
- **The Express backend** (`server.js`). The document is a single file. The
  model covers:
  - the configuration read from environment variables;
  - the `isValidContentShape` validator;
  - the `requireAuth` guard and the session flag;
  - every route handler, plus the route table.
- **The admin editor** (`static/js/admin.js`). The model covers:
  - the in-memory mirror `siteContent`;
  - the ordered record of dirty sections and the save bar;
  - every form handler that changes the mirror. These are pushes of item
    templates, confirmed `splice` deletes, timeline up/down swaps, toggles,
    text inputs and `addTag` with `trim()`. They are modelled as typed
    assignments along a property path, where a TypeError leaves everything
    untouched.
  - `saveSection` and the sequential `saveAllDirty`.
- **The client talking to each backend**. One `saveSection` is composed
  with the Flask handler it reaches. It is also composed with the Express
  router, where no route exists for it.
- **The seed fixture** (`init_db.py`). This covers `DEFAULTS`, all nine
  sections with their literal contents, and `seed()`.

Each module follows one source file. Shared pieces:

- `JsonValue`: parsed JSON, JavaScript and Python truthiness, and property
  reads.
- `Table`: keyed tables with SQL `INSERT OR IGNORE`, `UPDATE` and
  `ON CONFLICT DO UPDATE`.
- `Password`: idealised salted hashes.
- `ListOps`: `push`, `splice`, the swap and `trim`.
- `JsonPath`: property-path reads and assignments.

Randomness appears only as parameters: hash salts, and the `written`
outcome of the Express file write. File and database I/O are state values
threaded through pure functions.

In `admin.js`, `saveSection(name)` sends `PUT /api/content/<name>` with only
`siteContent[name]`. Flask serves that route. Express has only
`PUT /api/admin/content`, which takes the whole document. The model
therefore keeps both behaviours:

- `ClientServer.SaveToFlaskStores` proves the Flask save stores exactly the
  mirror's section.
- `ClientServer.SaveToExpressNeverSaves` proves the Express server answers
  every such save with an HTML page: its 404 page, or the body parser's 400
  page when the section's value is not an object or array. A section over
  the 2 MB limit would meet the parser's 413 page instead; body size is not
  modelled. The editor and the server stay unchanged.

## Model

| member | source | states |
|---|---|---|
| JsonValue.TruthinessDiffersOnlyOnEmptyContainers | app.py:138 | Python's `data or {}` and JavaScript's truthiness disagree exactly on `[]` and `{}` |
| Table.Select | models.py:79-87 | a lookup in a table with unique keys finds nothing exactly when the key is absent, and otherwise finds the row stored under it |
| Table.Upsert | models.py:90-98 | `ON CONFLICT DO UPDATE`: afterwards the key reads the new value, every other key reads as before, the key set grows by at most that key, and the row count grows only when the key was new |
| Table.InsertOrIgnore | models.py:44-51 | `INSERT OR IGNORE`: an existing key leaves the table unchanged; a new key is added with its value and nothing else changes |
| Table.Update | models.py:65-74 | `UPDATE … WHERE`: the affected row count is 1 when the key exists and 0 otherwise; a missing key changes nothing, and other keys are untouched |
| Table.ToMap | models.py:101-106 | the dictionary built from the rows has exactly the table's keys, each bound to what a lookup returns |
| Table.ToMapUpsert | models.py:90-106 | the dictionary after an upsert is the old dictionary with that one key overwritten |
| Table.UpsertSameValue | models.py:90-98 | upserting the value a key already holds leaves the table identical |
| Password.CheckHash | models.py:48-62 | a fresh salted hash accepts its own password and no other, whatever the salt |
| Models.InitDbFreshAndRerun | models.py:22-39 | `CREATE TABLE IF NOT EXISTS`: a missing database starts with no sections and no account that verifies, and running the initialisation again on any database changes nothing |
| Models.CreateAdmin | models.py:44-51 | a new username gets an account that verifies with the given password; an existing username is left untouched, and other accounts never change |
| Models.VerifyAdmin | models.py:54-62 | a pair verifies only for an existing user, and then the stored hash accepts exactly that one password |
| Models.ChangeAdminPassword | models.py:65-74 | reports a change exactly when the user exists; the user then verifies with the new password; a missing user changes nothing; other accounts are untouched |
| Models.ChangePasswordVerify | models.py:54-74 | after a password change, the user verifies with the new password and only with it, and every other user verifies as before |
| Models.GetSection | models.py:79-87 | a section reads `None` when it was never stored or was stored as JSON `null` (which `json.loads` turns into `None`); any other stored value is read back as it is |
| Models.SetSection | models.py:90-106 | after storing a section it reads back the stored value (`None` for `null`), every other section reads as before, and the all-content view is the previous one with that section replaced |
| Models.GetAllContent | models.py:101-106 | the all-content dictionary has exactly the stored sections, each with its stored value, `null` included; each non-null value is what the per-section read returns |
| Models.SetSectionIdempotent | models.py:90-98 | storing the same section value twice is the same as storing it once |
| FlaskApp.ApiRoutesWantJson | app.py:67 | every `/api/` route rejects unauthenticated callers with JSON rather than a redirect, whatever the request's content type |
| FlaskApp.AnonymousApiRefused | app.py:63-71 | without a logged-in admin, the get, put, get-all and change-password API routes all answer 401 JSON and write nothing, whatever the section or body |
| FlaskApp.AdminLogin | app.py:99-110 | a form post logs in as that user exactly when the stored hash verifies the pair, with missing fields read as `""`; a failure re-renders the form with "Invalid credentials" and leaves the session untouched; a GET only shows the form |
| FlaskApp.ApiGetContent | app.py:132-138 | reading a section never writes; it answers 401 when logged out, 404 off the whitelist, and otherwise the stored value, or `{}` for a missing or Python-falsy value |
| FlaskApp.ApiUpdateContent | app.py:141-148 | a logged-in put of a whitelisted section with a parsed body replaces that section only and answers `{"ok": true}`; logged-out, unknown-section and unparsable requests change nothing and answer 401, 404 and 400 |
| FlaskApp.UpdateThenGet | app.py:132-148 | a truthy value put into a section is what the next get of that section returns |
| FlaskApp.UpdateThenGetAll | app.py:141-154 | after a logged-in put of a whitelisted section, the whole-content route returns the previous stored view with that section replaced |
| FlaskApp.PyLen | app.py:162 | `len()` gives a string's length and raises on null, booleans and numbers |
| FlaskApp.ApiChangePassword | app.py:157-165 | content is never touched; a `new_password` whose `len()` is under 4 (a string, list or object) answers 400 and writes nothing; one `len()` rejects (null, boolean, number), or a list or object of 4 or more that the hasher then rejects, answers 500 and writes nothing; a string of 4 or more answers `{"ok": true}`, makes the session's user verify with it and leaves every other account as it was; a logged-in session whose user has no account row gets the same 200 and nothing is written; anything but success writes nothing |
| FlaskApp.Importable | app.py:189-195 | the importable entries are exactly the whitelisted names bound to JSON objects, with their values |
| FlaskApp.ImportFoldMeaning | app.py:191-195 | after visiting any distinct subset of the payload's keys, the stored view is the original view overlaid with the importable entries among them, and the count is their number |
| FlaskApp.ImportEntries | app.py:191-196 | the import loop overlays exactly the importable entries on the stored content and counts them |
| FlaskApp.ApiImport | app.py:182-198 | a non-object payload answers 400 and writes nothing; an unparsable one answers 400 with the parser's message; an object writes exactly its importable entries, keeps the accounts, and reports how many it wrote |
| FlaskApp.LoginOpensGateOnlyOnSuccess | app.py:99-110 | from an anonymous session, a login opens the gate exactly when the credentials verify and the username is non-empty |
| FlaskApp.LogoutLocksApi | app.py:113-116 | after logout, the get, put, get-all and change-password routes all answer 401 and write nothing |
| ExpressServer.ConfigFromEnv | server.js:13-14 | the admin user comes from `ADMIN_USER` or defaults to `admin`; a given `ADMIN_PASS_HASH` is used as is, and otherwise the hash accepts exactly `ADMIN_PASS` or `change-me-now` |
| ExpressServer.DefaultCredentials | server.js:13-14 | with no environment set, the server accepts `admin` / `change-me-now` |
| ExpressServer.ValidShapeMeaning | server.js:48-59 | the validator accepts exactly the JSON objects whose six required keys are all present with truthy values |
| ExpressServer.EmptySectionsAreValid | server.js:48-59 | a document whose six required keys hold three empty objects and three empty arrays passes, because both are truthy in JavaScript |
| ExpressServer.MissingContactIsInvalid | server.js:48-59 | a document without `contact` fails, whatever else it holds |
| ExpressServer.HandleLogin | server.js:78-96 | login never touches the file and only ever turns the flag on, and then answers `{ok: true}`; it answers 400 for missing or falsy fields, 401 for the wrong user or password, and never settles for a non-string password |
| ExpressServer.HandlePut | server.js:114-127 | the whole-document put never changes the session; it answers 401 for anonymous sessions and 400 for an invalid shape, and replaces the file with the body once the write succeeds; nothing else changes the file |
| ExpressServer.RoutedEffects | server.js:16-131 | a body the JSON parser refuses gets its error page and changes nothing, on any path: 413 for a body over the 2 MB limit and 400 otherwise; only `PUT /api/admin/content` from an admin session can change the file, and only the login and logout POSTs can change the session |
| ExpressServer.Route | server.js:16-131 | the JSON parser runs first: a request becomes the bad-body case exactly when its body is refused or is not an object or array, with status 413 exactly for an over-limit body and 400 otherwise; otherwise it reaches the put handler exactly for `PUT /api/admin/content`, and login and logout exactly for their POST paths, with the parsed body passed on unchanged; OPTIONS on a path with routes gets the router's own 200 reply listing that path's methods (`GET,HEAD,PUT` for `/api/admin/content`); any other verb, and a PUT to any other path, is unrouted |
| ExpressServer.AllowListsRoutes | server.js:61-131 | the methods an OPTIONS reply lists for a path are exactly the other methods the router hands to a handler on that path |
| ExpressServer.HeadRoutedAsGet | server.js:61-131 | a HEAD request reaches the handler of the GET route on the same path |
| ExpressServer.SessionTransitions | server.js:78-103 | only a successful login makes a session admin, and only logout makes an admin session anonymous |
| ExpressServer.AnonymousGuardedNoEffect | server.js:105-127 | an anonymous request to either guarded route gets 401 and changes nothing, whatever its body |
| ExpressServer.FileChangesOnlyByValidPut | server.js:114-127 | the file changes only through an admin's put of a valid document |
| ExpressServer.PutThenGet | server.js:69-127 | after a successful put, the public read returns exactly the body put, with nothing merged in from before |
| ExpressServer.LogoutLocks | server.js:98-131 | after logout, `me` reports false and both guarded routes answer 401, and a put changes nothing whatever document it carries |
| ExpressServer.LoginThenMe | server.js:78-131 | logging in with the configured user and its password makes `me` report true |
| ExpressServer.WrongPasswordRejected | server.js:85-92 | against the default configuration, `admin` / `wrong` gets 401 and the session stays anonymous |
| ListOps.Push | static/js/admin.js:438 | `push` adds the item at the end, keeps the earlier items in place, and adds exactly that item to the multiset |
| ListOps.SpliceOne | static/js/admin.js:485 | `splice(i, 1)` removes exactly item `i` and shifts the later ones left, so the multiset loses only that item; an index past the end removes nothing |
| ListOps.SplicePush | static/js/admin.js:438-485 | deleting the item just pushed gives back the list |
| ListOps.SwapAdjacent | static/js/admin.js:463 | the destructuring swap exchanges the two neighbours and keeps every other item: a permutation |
| ListOps.SwapTwice | static/js/admin.js:463-474 | swapping the same pair twice restores the list |
| ListOps.MoveUp | static/js/admin.js:459-467 | the up arrow exchanges item `i` with its predecessor where the arrow is rendered (`i > 0`), and otherwise changes nothing |
| ListOps.MoveDown | static/js/admin.js:470-478 | the down arrow exchanges item `i` with its successor where the arrow is rendered, and otherwise changes nothing |
| ListOps.MoveDownThenUp | static/js/admin.js:459-478 | moving an item down and then back up is the identity |
| ListOps.Trim | static/js/admin.js:749 | `trim()` is a slice of the input with only whitespace outside it, and the result neither starts nor ends with whitespace |
| ListOps.TrimEmptyIffBlank | static/js/admin.js:749-750 | the trimmed tag is empty exactly when the input is all whitespace, which is when `addTag` returns early |
| ListOps.TrimIdempotent | static/js/admin.js:749 | trimming twice is trimming once |
| JsonPath.PutDefined | static/js/admin.js:412 | an assignment along a path succeeds exactly when the parent of its last step exists and accepts that step |
| JsonPath.GetPut | static/js/admin.js:412 | what was assigned along a path is what reading that path returns |
| JsonPath.PutLeavesOthers | static/js/admin.js:412 | an assignment leaves every path that branches away from it unchanged |
| AdminEditor.LoadEditSaveIsClean | static/js/admin.js:6-96 | from a freshly loaded page, an edit followed by a successful save of its section leaves nothing dirty and the save bar hidden, with the edit kept in the mirror |
| AdminEditor.MarkDirty | static/js/admin.js:55-58 | marking adds the section to the dirty record, shows the save bar, and never touches the mirror; an already dirty section keeps its place |
| AdminEditor.Without | static/js/admin.js:85 | `delete dirty[name]` removes exactly that key and keeps the others in order |
| AdminEditor.WithoutMiddle | static/js/admin.js:85 | deleting a key closes its gap: the keys before and after it stay in order |
| AdminEditor.Edit | static/js/admin.js:155 | a handler leaves every other section as it was; when its assignment can happen, the target reads the new value and the section becomes dirty; a TypeError or a no-op changes nothing |
| AdminEditor.EditLeavesOthers | static/js/admin.js:155 | inside the edited section too, every location whose path branches away from the handler's target reads as before |
| AdminEditor.Press | static/js/admin.js:437-755 | a click on any of the editor's buttons can change only the section the button belongs to, and a click that changes anything leaves that section dirty and the save bar shown |
| AdminEditor.AddTimelineItemAppends | static/js/admin.js:437-440 | the add button appends the template to the timeline's items and keeps the earlier items; the section becomes dirty; without the list nothing changes |
| AdminEditor.TimelineUpSwaps | static/js/admin.js:459-467 | the up arrow swaps item `i` with its predecessor when the arrow is offered, and the timeline becomes dirty |
| AdminEditor.DeleteSplices | static/js/admin.js:484-488 | a confirmed delete removes exactly item `i` and marks the section dirty; a declined confirmation changes nothing |
| AdminEditor.AppendAt | static/js/admin.js:696-703 | any push handler appends to the list at its path, or first creates `[]` when it replaces a falsy target; without a list to push to, nothing changes |
| AdminEditor.AddTagIsAppend | static/js/admin.js:748-755 | `addTag` ignores blank input, and otherwise pushes the trimmed text onto the project's tags, creating the list when there is none |
| AdminEditor.ToggleNegates | static/js/admin.js:576-580 | a toggle stores the negation of the flag's current truthiness and marks the section dirty |
| AdminEditor.SaveSection | static/js/admin.js:76-96 | a save never touches the mirror; success removes just that section from the dirty record and hides the bar once the record is empty; any failure changes nothing |
| AdminEditor.EditThenSave | static/js/admin.js:55-96 | an edit followed by a successful save of a section that was clean leaves the dirty record as it was before the edit |
| AdminEditor.UnsavedSubset | static/js/admin.js:98-101 | the sections left unsaved are exactly those whose save failed |
| AdminEditor.SaveInOrderMeaning | static/js/admin.js:98-101 | saving every dirty section in turn leaves exactly the failed ones dirty, in order; the mirror is untouched, and the bar hides only when a save succeeded and nothing is left |
| AdminEditor.SaveAllDirty | static/js/admin.js:98-101 | `saveAllDirty` attempts exactly the sections dirty at its start, in order; it leaves the failed ones dirty and never touches the mirror |
| ClientServer.SaveToFlaskStores | static/js/admin.js:76-95 | a logged-in save of a whitelisted section stores exactly the mirror's value and leaves the other sections and the accounts alone; it takes only that section out of the dirty record |
| ClientServer.SaveToFlaskLoggedOut | app.py:63-71 | a save after the session lapsed stores nothing and keeps the editor unchanged |
| ClientServer.SaveMissingSection | static/js/admin.js:81 | a section the mirror lacks sends no body: Flask answers 400, nothing is stored and the editor is unchanged |
| ClientServer.SaveUnknownSection | app.py:144-145 | a section name off the whitelist gets 404: nothing is stored and the editor is unchanged |
| ClientServer.SaveToExpressNeverSaves | static/js/admin.js:76-95 | against the Express server, a per-section save leaves both the editor and the server unchanged, whoever is logged in |
| Seed.Entries | init_db.py:8-151 | `DEFAULTS` iterates exactly the nine whitelisted sections, in order |
| Seed.SetAllView | init_db.py:162-163 | upserting the entries one after another overlays their dictionary, where later entries win, on the stored view |
| Seed.SeedWith | init_db.py:154-163 | seeding creates an `admin` account that verifies with `admin` unless one exists, and otherwise leaves the accounts untouched |
| Seed.SeedWithFreshContent | init_db.py:154-163 | seeding a fresh database stores exactly the fixture's dictionary |
| Seed.SeedWithFreshAdmin | init_db.py:158-159 | a fresh database gets an `admin` account that accepts `admin` |
| Seed.SeedWithIdempotent | init_db.py:154-163 | seeding twice with a fixture whose keys are distinct is seeding once, whatever the second salt |
| Seed.EntriesKeys | init_db.py:8-151 | a fixture's keys are distinct and are exactly the API's whitelist |
| Seed.EntriesNonEmpty | init_db.py:8-151 | a filled-in fixture gives a dictionary of non-empty objects |
| Seed.FilledInValidShape | init_db.py:8-151 | a filled-in fixture passes the Express validator |
| Seed.SeedWithServes | init_db.py:154-163 | after seeding a fresh database with a filled-in fixture, the per-section route serves each section's default value |
| Seed.DefaultsFilledIn | init_db.py:8-151 | every section of `DEFAULTS` is an object with at least one field |
| Seed.SeedFresh | init_db.py:154-163 | seeding a fresh database stores exactly `DEFAULTS` plus an `admin`/`admin` account |
| Seed.SeedIdempotent | init_db.py:154-163 | running `seed()` again changes nothing |
| Seed.DefaultKeysAreSections | init_db.py:8-151 | the default sections are exactly the API's whitelist |
| Seed.DefaultsHaveValidShape | init_db.py:8-151 | the seeded document passes the Express validator |
| Seed.SeededSectionsServed | init_db.py:154-163 | after seeding, the per-section route serves each section's default value |

## Left out

- The public page (`static/js/public.js`, `templates/`) and all DOM rendering in `admin.js`. This includes toasts, the sidebar and `switchSection`. None of them changes the document.
- `GET /api/export`, the admin dashboard page and the public index. They only read and render the stored content.
- The import and change-password forms in `admin.js`. These are the client-side file reading and length check. The server handlers they call are modelled.
- Password hashing is idealised. A hash records its salt and accepts exactly its own password. This means werkzeug's and bcrypt's algorithms are not modelled, and neither is bcrypt's 72-byte truncation.
- The SQLite storage, and the JSON text round trip through `json.dumps`/`json.loads` and `JSON.stringify`/`JSON.parse`. The model stores the parsed value directly. Key order and formatting are not modelled.
- JSON numbers are exact reals. IEEE-754 rounding, `-0` and large-integer precision are not modelled, and neither are the `NaN`, `Infinity` and `-Infinity` that Python's `json` accepts in a Flask request body.
- Session cookies, their lifetimes (6 h and 12 h), secret keys and security headers.
- Concurrency is not modelled. Every request runs to completion before the next. The lost update of two overlapping whole-document PUTs, and interleaved saves, are out of scope.
- Express routing details: case-insensitive paths and trailing slashes. The size of a body is not modelled; a body over the 2 MB limit is the `TooLarge` case, which gets the parser's 413 page, while malformed JSON and a top-level primitive get its 400 page, all before any path is matched.
- ExpressServer.Route: a HEAD request is routed as its GET, and its reply is modelled as the GET's; that Express sends only the headers is not distinguished. The automatic OPTIONS reply is modelled by its status and method list; its plain-text body and other headers are not.
- ExpressServer.HandleLogin: a truthy non-string password under the right username is modelled as a request that is never answered, with the state kept. In the source, `bcrypt.compare` rejects inside an async handler that Express 4 does not catch; on Node 15 and later the unhandled rejection ends the process, which loses every session, and Express 5 would answer 500 instead.
- Flask's exact HTML for its 400/404 pages. A malformed body is one `Malformed` case, and the client only needs to know that the reply is not JSON.
- JavaScript object key order for integer-like section names. `dirty` keeps insertion order, which matches every real section name.
- AdminEditor.Edit: an assignment on a primitive or array parent, which JavaScript's sloppy mode silently ignores, is modelled as a TypeError. In the source, such an assignment still marks the section dirty. Here the editor is left unchanged.
- ClientServer.ExpressReply: a request that Express never answers is modelled as `None`, a save that never settles. The browser's eventual network timeout is not modelled.
