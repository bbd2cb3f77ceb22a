/**
 * The SQLite layer of the Flask backend (models.py): the `admin_users` table
 * (username -> password hash) and the `site_content` table (section name ->
 * JSON content). `json.dumps` followed by `json.loads` is taken to be the
 * identity, so a content row stores the parsed value itself.
 */
module Models {
  import opened Wrappers
  import opened JsonValue
  import opened Password
  import T = Table

  type AdminTable = T.Table<PasswordHash>
  type ContentTable = T.Table<Json>

  /** The database file: both tables. */
  datatype Db = Db(admins: AdminTable, content: ContentTable)

  /** `init_db`: `CREATE TABLE IF NOT EXISTS` for both tables. `None` is a
      database file that does not exist yet. */
  function InitDb(db: Option<Db>): (r: Db)
    ensures db.None? ==> r.admins == [] && r.content == []
    ensures db.Some? ==> r == db.value
  {
    match db
    case None => Db([], [])
    case Some(d) => d
  }

  /** A database file `init_db` has just created holds no section and lets no
      one log in, and running `init_db` on a database again changes nothing. */
  lemma InitDbFreshAndRerun(db: Option<Db>, section: string, username: string, password: string)
    ensures GetSection(InitDb(None).content, section).None?
    ensures GetAllContent(InitDb(None).content) == map[]
    ensures !VerifyAdmin(InitDb(None).admins, username, password)
    ensures InitDb(Some(InitDb(db))) == InitDb(db)
  {
    var m := GetAllContent(InitDb(None).content);
    assert forall s :: s !in m;
  }

  // ── Admin users ───────────────────────────────────────

  /** `create_admin`: INSERT OR IGNORE of a freshly salted hash. */
  function CreateAdmin(admins: AdminTable, username: string, password: string, salt: nat): (r: AdminTable)
    ensures username in T.Keys(admins) ==> r == admins
    ensures username !in T.Keys(admins) ==> VerifyAdmin(r, username, password)
    ensures forall u :: u != username ==> T.Select(r, u) == T.Select(admins, u)
  {
    T.InsertOrIgnore(admins, username, Hash(password, salt))
  }

  /** `verify_admin`: false for an unknown user, otherwise the hash check. */
  predicate VerifyAdmin(admins: AdminTable, username: string, password: string)
    ensures VerifyAdmin(admins, username, password) ==> username in T.Keys(admins)
    ensures VerifyAdmin(admins, username, password) ==>
      forall other :: Check(T.Select(admins, username).value, other) <==> other == password
  {
    match T.Select(admins, username)
    case None => false
    case Some(h) => Check(h, password)
  }

  /** `change_admin_password`: UPDATE the user's hash; report `rowcount > 0`. */
  function ChangeAdminPassword(admins: AdminTable, username: string, newPassword: string, salt: nat)
    : (r: (AdminTable, bool))
    ensures r.1 <==> username in T.Keys(admins)
    ensures r.1 ==> VerifyAdmin(r.0, username, newPassword)
    ensures !r.1 ==> r.0 == admins
    ensures forall u :: u != username ==> T.Select(r.0, u) == T.Select(admins, u)
  {
    var (t, rowcount) := T.Update(admins, username, Hash(newPassword, salt));
    (t, rowcount > 0)
  }

  /** Verification after a password change: the new password is accepted, the
      old one is accepted only if it equals the new one, and every other user's
      verdict is unchanged. */
  lemma ChangePasswordVerify(admins: AdminTable, username: string, newPassword: string, salt: nat,
                             other: string, attempt: string)
    requires username in T.Keys(admins)
    ensures VerifyAdmin(ChangeAdminPassword(admins, username, newPassword, salt).0, username, attempt)
            <==> attempt == newPassword
    ensures other != username ==>
      (VerifyAdmin(ChangeAdminPassword(admins, username, newPassword, salt).0, other, attempt)
       <==> VerifyAdmin(admins, other, attempt))
  {
    var t := ChangeAdminPassword(admins, username, newPassword, salt).0;
    assert T.Select(t, username) == Some(Hash(newPassword, salt));
  }

  // ── Site content ──────────────────────────────────────

  /** `get_section`: `json.loads` of the stored text, so a section never
      stored and a section stored as JSON `null` both read as `None`. */
  function GetSection(content: ContentTable, section: string): (r: Option<Json>)
    ensures section !in T.Keys(content) ==> r.None?
    ensures r.Some? ==> T.Select(content, section) == r && r.value != JNull
    ensures T.Select(content, section).Some? && T.Select(content, section).value != JNull ==> r.Some?
  {
    match T.Select(content, section)
    case Some(v) => if v == JNull then None else Some(v)
    case None => None
  }

  /** `set_section`: upsert, never insert-or-fail. The section then reads back
      as the value (`None` for `null`), every other section reads as before,
      and the all-content view has exactly that section rebound. */
  function SetSection(content: ContentTable, section: string, value: Json): (r: ContentTable)
    ensures T.Select(r, section) == Some(value)
    ensures GetSection(r, section) == if value == JNull then None else Some(value)
    ensures forall s :: s != section ==> GetSection(r, s) == GetSection(content, s)
    ensures GetAllContent(r) == GetAllContent(content)[section := value]
  {
    T.ToMapUpsert(content, section, value);
    T.Upsert(content, section, value)
  }

  /** `get_all_content`: every stored section with its stored value, nothing
      else; a section stored as `null` is present with the value `null`. */
  function GetAllContent(content: ContentTable): (r: map<string, Json>)
    ensures forall s :: s in r <==> s in T.Keys(content)
    ensures forall s :: s in r ==> T.Select(content, s) == Some(r[s])
    ensures forall s :: s in r && r[s] != JNull ==> GetSection(content, s) == Some(r[s])
  {
    T.ToMap(content)
  }

  /** Storing the same content twice leaves the same table as storing it once. */
  lemma SetSectionIdempotent(content: ContentTable, section: string, value: Json)
    ensures SetSection(SetSection(content, section, value), section, value)
            == SetSection(content, section, value)
  {
    T.UpsertSameValue(SetSection(content, section, value), section, value);
  }
}
