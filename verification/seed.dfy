/**
 * The default content fixture of init_db.py and `seed()`, which creates the
 * tables, inserts the `admin` / `admin` account when absent and upserts every
 * default section in turn.
 */
module Seed {
  import opened Wrappers
  import opened JsonValue
  import opened Models
  import T = Table
  import FlaskApp
  import ExpressServer

  // ── DEFAULTS ──────────────────────────────────────────

  const SettingsDefault: Json :=
    JObject(map[
      "site_title" := JString("Tahsin Ali Abtahi — Portfolio"),
      "nav_logo" := JString("tahsin.dev"),
      "meta_description" := JString("Portfolio of MD Tahsin Ali Abtahi — developer, builder, Minecraft enthusiast."),
      "footer" := JString("© 2025 MD Tahsin Ali Abtahi — built with Python, vibes & redstone logic 🎮")
    ])

  const HeroDefault: Json :=
    JObject(map[
      "tag" := JString("👋 Hey there, I'm"),
      "name_line1" := JString("MD Tahsin"),
      "name_line2" := JString("Ali Abtahi"),
      "typing_phrases" := JArray([
        JString("Aspiring Developer 💻"),
        JString("Future Engineer 🔧"),
        JString("Python Enthusiast 🐍"),
        JString("Vibe Coder ✨"),
        JString("11th Std. Student 📚")
      ]),
      "subtitle" := JString("11th-grader by day, aspiring developer by night. Started with Minecraft redstone, ended up writing Python. No regrets. 🎮🐍"),
      "cta_primary_text" := JString("See My Work 🚀"),
      "cta_primary_link" := JString("#projects"),
      "cta_secondary_text" := JString("Get in Touch"),
      "cta_secondary_link" := JString("#contact")
    ])

  const AboutDefault: Json :=
    JObject(map[
      "paragraphs" := JArray([
        JString("I'm a Science stream student at <strong>PM SHRI KV 210 CoBRA CRPF Dalgaon</strong>, studying PCMCs — Physics, Chemistry, Mathematics & Computer Science."),
        JString("What started as curiosity about Minecraft redstone circuits slowly transformed into a genuine love for programming. Today I build real apps, experiment with Python, and vibe-code my way through side projects. 😄"),
        JString("I'm a hackathon veteran (team leader, no less!) and an aspiring developer who believes the best way to learn is to just <em>build stuff</em> — even if it breaks first.")
      ]),
      "facts" := JArray([
        JObject(map[
          "emoji" := JString("🏫"),
          "label" := JString("School"),
          "value" := JString("PM SHRI KV 210 CoBRA CRPF Dalgaon")
        ]),
        JObject(map[
          "emoji" := JString("📚"),
          "label" := JString("Stream"),
          "value" := JString("PCMCs — 11th Standard")
        ]),
        JObject(map[
          "emoji" := JString("🎮"),
          "label" := JString("Origin Story"),
          "value" := JString("Minecraft Redstone → Coding")
        ]),
        JObject(map[
          "emoji" := JString("🏆"),
          "label" := JString("Achievement"),
          "value" := JString("Hackathon — Zonal Level (Top 120)")
        ])
      ])
    ])

  const TimelineDefault: Json :=
    JObject(map[
      "items" := JArray([
        JObject(map[
          "year" := JString("8TH STANDARD • THE BEGINNING"),
          "title" := JString("🎮 Minecraft Led Me Here"),
          "description" := JString("Got my first laptop. Was obsessed with Minecraft redstone — complex circuits, logic gates, contraptions. Somehow that wired my brain for programming. Started tinkering with HTML, made some practice projects (that I later deleted 😅)."),
          "badge" := JString("")
        ]),
        JObject(map[
          "year" := JString("8TH–9TH STANDARD • THE DETOUR"),
          "title" := JString("🤖 Built a JARVIS — Without Knowing Python"),
          "description" := JString("Decided to build a Jarvis-like desktop assistant using Python. Problem: I literally knew 0% Python. Solution: copy code from YouTube tutorials. Result: it somehow worked — and I accidentally learned Python syntax along the way. Then continued with CSS."),
          "badge" := JString("")
        ]),
        JObject(map[
          "year" := JString("10TH STANDARD • THE PAUSE"),
          "title" := JString("📝 Board Exams Hit Different"),
          "description" := JString("Started a proper Python course — but life had other plans. 10th board exams took over. Coding went on the back burner. The grind was real."),
          "badge" := JString("")
        ]),
        JObject(map[
          "year" := JString("11TH STANDARD • THE COMEBACK"),
          "title" := JString("🐍 Python, Completed. Streamlit, Unlocked."),
          "description" := JString("Picked up Python again — this time, finished it properly. Then discovered Streamlit and realized I could build real web apps with pure Python. Things clicked. The momentum was back."),
          "badge" := JString("")
        ]),
        JObject(map[
          "year" := JString("MID 11TH • THE AHA MOMENT ⚡"),
          "title" := JString("🏆 Hackathon: School → Zonal Level"),
          "description" := JString("Led my team in an All-India school-level hackathon. We cleared the school round and made it to Zonal level — finishing in the top 120 nationwide. That moment hit different. This is real."),
          "badge" := JString("🏅 Top 120 Nationally")
        ]),
        JObject(map[
          "year" := JString("MID 11TH • THE LAUNCH"),
          "title" := JString("📅 DayMark Goes Live"),
          "description" := JString("Developed and deployed DayMark — a real, live productivity web app. My first proper full-stack project shipped to the world. Still running at daymark.streamlit.app."),
          "badge" := JString("")
        ])
      ])
    ])

  const SkillsDefault: Json :=
    JObject(map[
      "items" := JArray([
        JObject(map["emoji" := JString("🐍"), "name" := JString("Python")]),
        JObject(map["emoji" := JString("🌐"), "name" := JString("HTML")]),
        JObject(map["emoji" := JString("🎨"), "name" := JString("CSS")]),
        JObject(map["emoji" := JString("⚡"), "name" := JString("Streamlit")]),
        JObject(map["emoji" := JString("✨"), "name" := JString("Vibe Coding")]),
        JObject(map["emoji" := JString("🔢"), "name" := JString("Mathematics")]),
        JObject(map["emoji" := JString("🧪"), "name" := JString("Physics & Science")]),
        JObject(map["emoji" := JString("🐙"), "name" := JString("Git & GitHub")]),
        JObject(map["emoji" := JString("🧠"), "name" := JString("Problem Solving")]),
        JObject(map["emoji" := JString("🎮"), "name" := JString("Minecraft Redstone (origin)")])
      ])
    ])

  const GitHubDefault: Json :=
    JObject(map["username" := JString("Tahsin2155"), "show_stats" := JBool(true)])

  const NowPlayingDefault: Json :=
    JObject(map[
      "track" := JString("Whatever's on the playlist"),
      "artist" := JString("Music fuels the code ☕"),
      "note" := JString("🎧 Gaming + music = the ultimate coding setup. Ask me what I'm listening to!")
    ])

  const ProjectsDefault: Json :=
    JObject(map[
      "items" := JArray([
        JObject(map[
          "emoji" := JString("📅"),
          "title" := JString("DayMark"),
          "description" := JString("A personal productivity web app built entirely with Python & Streamlit. Track your days, mark milestones, and stay organised — all in a clean, minimal interface. Live and running!"),
          "tags" := JArray([
            JString("Python"),
            JString("Streamlit"),
            JString("Productivity"),
            JString("Live 🟢")
          ]),
          "links" := JArray([
            JObject(map[
              "label" := JString("Live App →"),
              "url" := JString("https://daymark.streamlit.app")
            ]),
            JObject(map[
              "label" := JString("GitHub Repo →"),
              "url" := JString("https://github.com/Tahsin2155/DayMark")
            ])
          ]),
          "featured" := JBool(true)
        ]),
        JObject(map[
          "emoji" := JString("🤖"),
          "title" := JString("JARVIS Desktop Assistant"),
          "description" := JString("The project that started it all. A voice-controlled desktop assistant inspired by Iron Man — built when I knew 0% Python, by copying YouTube code and reverse-engineering it into understanding."),
          "tags" := JArray([JString("Python"), JString("Personal"), JString("Origin Project")]),
          "links" := JArray([
            JObject(map[
              "label" := JString("View GitHub →"),
              "url" := JString("https://github.com/Tahsin2155")
            ])
          ]),
          "featured" := JBool(false)
        ]),
        JObject(map[
          "emoji" := JString("🔬"),
          "title" := JString("Math & Science Explorations"),
          "description" := JString("Scripts and mini-projects exploring PCMCs concepts — visualizations, problem solvers, and anything that makes studying less boring and more interactive."),
          "tags" := JArray([JString("Python"), JString("Math"), JString("Research")]),
          "links" := JArray([
            JObject(map[
              "label" := JString("View GitHub →"),
              "url" := JString("https://github.com/Tahsin2155")
            ])
          ]),
          "featured" := JBool(false)
        ])
      ])
    ])

  const ContactDefault: Json :=
    JObject(map[
      "tagline" := JString("Have a cool project idea? Want to collaborate? Or just want to talk code, games, or music? I'm always down. 📩"),
      "email" := JString("tahsindlg@gmail.com"),
      "socials" := JArray([
        JObject(map[
          "platform" := JString("instagram"),
          "label" := JString("📸 @tahsin_2155"),
          "url" := JString("https://www.instagram.com/tahsin_2155")
        ]),
        JObject(map[
          "platform" := JString("github"),
          "label" := JString("🐙 Tahsin2155"),
          "url" := JString("https://github.com/Tahsin2155")
        ])
      ])
    ])

  /** `DEFAULTS`: one default value per section. */
  datatype Fixture = Fixture(settings: Json, hero: Json, about: Json, timeline: Json, skills: Json,
                             github: Json, nowplaying: Json, projects: Json, contact: Json)

  const DefaultFixture: Fixture :=
    Fixture(SettingsDefault, HeroDefault, AboutDefault, TimelineDefault, SkillsDefault,
            GitHubDefault, NowPlayingDefault, ProjectsDefault, ContactDefault)

  /** The fixture as the `(section, content)` pairs `seed()` iterates, in the
      dictionary's order, which is the order of the API's whitelist. */
  function Entries(f: Fixture): (r: seq<(string, Json)>)
    ensures |r| == |FlaskApp.Sections|
    ensures forall i :: 0 <= i < |r| ==> r[i].0 == FlaskApp.Sections[i]
  {
    [("settings", f.settings), ("hero", f.hero), ("about", f.about), ("timeline", f.timeline),
     ("skills", f.skills), ("github", f.github), ("nowplaying", f.nowplaying),
     ("projects", f.projects), ("contact", f.contact)]
  }

  const Defaults: seq<(string, Json)> := Entries(DefaultFixture)

  /** The entries as a dictionary: a later entry for the same key wins. */
  function EntryMap(entries: seq<(string, Json)>): map<string, Json> {
    if entries == [] then map[]
    else
      var last := entries[|entries| - 1];
      EntryMap(entries[..|entries| - 1])[last.0 := last.1]
  }

  /** `DEFAULTS` as the dictionary it is. */
  function DefaultsMap(): map<string, Json> {
    EntryMap(Defaults)
  }

  predicate NonEmptyObject(v: Json) {
    v.JObject? && v.fields != map[]
  }

  /** Every section of the fixture is an object with at least one field. */
  predicate FilledIn(f: Fixture) {
    && NonEmptyObject(f.settings) && NonEmptyObject(f.hero) && NonEmptyObject(f.about)
    && NonEmptyObject(f.timeline) && NonEmptyObject(f.skills) && NonEmptyObject(f.github)
    && NonEmptyObject(f.nowplaying) && NonEmptyObject(f.projects) && NonEmptyObject(f.contact)
  }

  predicate DistinctKeys(entries: seq<(string, Json)>) {
    forall a, b :: 0 <= a < b < |entries| ==> entries[a].0 != entries[b].0
  }

  // ── seed() ────────────────────────────────────────────

  /** `for section, content in entries: set_section(section, content)`. */
  function SetAll(content: ContentTable, entries: seq<(string, Json)>): ContentTable {
    if entries == [] then content
    else
      var last := entries[|entries| - 1];
      SetSection(SetAll(content, entries[..|entries| - 1]), last.0, last.1)
  }

  /** `seed()` with `entries` for the fixture, on the database file as it is
      (`None`: no file yet); `salt` is the one the admin password is hashed
      with. */
  function SeedWith(db: Option<Db>, salt: nat, entries: seq<(string, Json)>): (r: Db)
    ensures VerifyAdmin(r.admins, "admin", "admin") || T.Select(InitDb(db).admins, "admin").Some?
    ensures forall u :: T.Select(r.admins, u) == if u == "admin" && T.Select(InitDb(db).admins, u).None?
                                                 then Some(Password.Hash("admin", salt))
                                                 else T.Select(InitDb(db).admins, u)
  {
    var d := InitDb(db);
    Db(CreateAdmin(d.admins, "admin", "admin", salt), SetAll(d.content, entries))
  }

  /** `seed()` itself. */
  function Seed(db: Option<Db>, salt: nat): Db {
    SeedWith(db, salt, Defaults)
  }

  // ── Fixture-independent facts ─────────────────────────

  /** Upserting entries one after another leaves the table holding the
      entries' dictionary over what was there. */
  lemma {:induction false} SetAllView(content: ContentTable, entries: seq<(string, Json)>)
    ensures GetAllContent(SetAll(content, entries)) == GetAllContent(content) + EntryMap(entries)
  {
    if entries != [] {
      var init := entries[..|entries| - 1];
      var last := entries[|entries| - 1];
      SetAllView(content, init);
      FlaskApp.UnionUpdate(GetAllContent(content), EntryMap(init), last.0, last.1);
    }
  }

  /** Upserting entries that the table already holds changes nothing. */
  lemma {:induction false} SetAllPresent(content: ContentTable, entries: seq<(string, Json)>)
    requires forall i :: 0 <= i < |entries| ==> T.Select(content, entries[i].0) == Some(entries[i].1)
    ensures SetAll(content, entries) == content
  {
    if entries != [] {
      var init := entries[..|entries| - 1];
      var last := entries[|entries| - 1];
      assert forall i :: 0 <= i < |init| ==> init[i] == entries[i];
      SetAllPresent(content, init);
      T.UpsertSameValue(content, last.0, last.1);
    }
  }

  /** With distinct keys each entry is in the dictionary under its own key. */
  lemma {:induction false} EntryMapLookup(entries: seq<(string, Json)>, i: nat)
    requires i < |entries| && DistinctKeys(entries)
    ensures entries[i].0 in EntryMap(entries) && EntryMap(entries)[entries[i].0] == entries[i].1
  {
    var init := entries[..|entries| - 1];
    if i < |init| {
      assert init[i] == entries[i];
      EntryMapLookup(init, i);
    }
  }

  /** The dictionary's keys are the entries' keys. */
  lemma {:induction false} EntryMapKeys(entries: seq<(string, Json)>)
    ensures EntryMap(entries).Keys == set i | 0 <= i < |entries| :: entries[i].0
  {
    if entries != [] {
      var init := entries[..|entries| - 1];
      EntryMapKeys(init);
      assert forall i :: 0 <= i < |init| ==> init[i] == entries[i];
    }
  }

  /** Seeding a fresh database stores exactly the fixture's dictionary. */
  lemma SeedWithFreshContent(salt: nat, entries: seq<(string, Json)>)
    ensures GetAllContent(SeedWith(None, salt, entries).content) == EntryMap(entries)
  {
    SetAllView([], entries);
    EmptyTable();
    EmptyUnion(EntryMap(entries));
  }

  lemma EmptyTable()
    ensures GetAllContent([]) == map[]
  {
  }

  lemma EmptyUnion(m: map<string, Json>)
    ensures map[] + m == m
  {
  }

  /** A fresh database gets an `admin` account that accepts `admin`. */
  lemma SeedWithFreshAdmin(salt: nat, entries: seq<(string, Json)>)
    ensures VerifyAdmin(SeedWith(None, salt, entries).admins, "admin", "admin")
  {
    assert InitDb(None).admins == [];
  }

  /** Seeding twice with a fixture whose keys are distinct is seeding once. */
  lemma SeedWithIdempotent(db: Option<Db>, salt1: nat, salt2: nat, entries: seq<(string, Json)>)
    requires DistinctKeys(entries)
    ensures SeedWith(Some(SeedWith(db, salt1, entries)), salt2, entries) == SeedWith(db, salt1, entries)
  {
    var once := SeedWith(db, salt1, entries);
    SetAllView(InitDb(db).content, entries);
    forall i | 0 <= i < |entries|
      ensures T.Select(once.content, entries[i].0) == Some(entries[i].1)
    {
      EntryMapLookup(entries, i);
    }
    SetAllPresent(once.content, entries);
  }

  /** Any fixture's keys are distinct and are exactly the whitelist. */
  lemma EntriesKeys(f: Fixture)
    ensures DistinctKeys(Entries(f))
    ensures EntryMap(Entries(f)).Keys == set s | s in FlaskApp.Sections
  {
    EntryMapKeys(Entries(f));
  }

  /** A filled-in fixture gives a dictionary of non-empty objects. */
  lemma EntriesNonEmpty(f: Fixture)
    requires FilledIn(f)
    ensures forall k :: k in EntryMap(Entries(f)) ==> NonEmptyObject(EntryMap(Entries(f))[k])
  {
    var es := Entries(f);
    EntriesKeys(f);
    forall k | k in EntryMap(es) ensures NonEmptyObject(EntryMap(es)[k]) {
      var i :| 0 <= i < |es| && es[i].0 == k;
      EntryMapLookup(es, i);
    }
  }

  /** A filled-in fixture passes the Express backend's shape check: all six
      required sections are present and are non-empty objects. */
  lemma FilledInValidShape(f: Fixture)
    requires FilledIn(f)
    ensures ExpressServer.IsValidContentShape(JObject(EntryMap(Entries(f))))
  {
    EntriesKeys(f);
    EntriesNonEmpty(f);
    assert forall i :: 0 <= i < |ExpressServer.RequiredKeys| ==> ExpressServer.RequiredKeys[i] in FlaskApp.Sections;
    ExpressServer.ValidShapeMeaning(JObject(EntryMap(Entries(f))));
  }

  /** After seeding a fresh database with a filled-in fixture, the
      per-section API serves each section as stored (being non-empty, `data
      or {}` keeps them). */
  lemma SeedWithServes(salt: nat, f: Fixture, sess: FlaskApp.Session, name: string)
    requires FilledIn(f) && FlaskApp.LoggedIn(sess) && name in FlaskApp.Sections
    ensures name in EntryMap(Entries(f))
    ensures FlaskApp.ApiGetContent(SeedWith(None, salt, Entries(f)), sess, name).response
            == FlaskApp.JsonReply(200, EntryMap(Entries(f))[name])
  {
    var es := Entries(f);
    var content := SeedWith(None, salt, es).content;
    SeedWithFreshContent(salt, es);
    EntriesKeys(f);
    EntriesNonEmpty(f);
    assert name in EntryMap(es);
    assert GetSection(content, name) == Some(EntryMap(es)[name]);
    assert PyTruthy(EntryMap(es)[name]);
  }

  // ── Properties of DEFAULTS ────────────────────────────

  /** Every default section is an object with at least one field. */
  lemma DefaultsFilledIn()
    ensures FilledIn(DefaultFixture)
  {
    assert "footer" in SettingsDefault.fields;
    assert "tag" in HeroDefault.fields;
    assert "facts" in AboutDefault.fields;
    assert "items" in TimelineDefault.fields;
    assert "items" in SkillsDefault.fields;
    assert "username" in GitHubDefault.fields;
    assert "track" in NowPlayingDefault.fields;
    assert "items" in ProjectsDefault.fields;
    assert "email" in ContactDefault.fields;
  }

  /** Seeding a fresh database stores exactly `DEFAULTS` and an `admin`
      account that accepts the password `admin`. */
  lemma SeedFresh(salt: nat)
    ensures GetAllContent(Seed(None, salt).content) == DefaultsMap()
    ensures VerifyAdmin(Seed(None, salt).admins, "admin", "admin")
  {
    SeedWithFreshContent(salt, Defaults);
    SeedWithFreshAdmin(salt, Defaults);
  }

  /** Running `seed()` again changes nothing: the content upserts rewrite the
      same values and the admin insert is ignored. */
  lemma SeedIdempotent(db: Option<Db>, salt1: nat, salt2: nat)
    ensures Seed(Some(Seed(db, salt1)), salt2) == Seed(db, salt1)
  {
    EntriesKeys(DefaultFixture);
    SeedWithIdempotent(db, salt1, salt2, Defaults);
  }

  /** The default sections are exactly the API's whitelist, so each of them
      can be read, written and imported. */
  lemma DefaultKeysAreSections()
    ensures DefaultsMap().Keys == set s | s in FlaskApp.Sections
  {
    EntriesKeys(DefaultFixture);
  }

  /** `DEFAULTS` passes the Express backend's shape check. */
  lemma DefaultsHaveValidShape()
    ensures ExpressServer.IsValidContentShape(JObject(DefaultsMap()))
  {
    DefaultsFilledIn();
    FilledInValidShape(DefaultFixture);
  }

  /** After seeding, the per-section API serves each default section as
      stored. */
  lemma SeededSectionsServed(salt: nat, sess: FlaskApp.Session, name: string)
    requires FlaskApp.LoggedIn(sess) && name in FlaskApp.Sections
    ensures name in DefaultsMap()
    ensures FlaskApp.ApiGetContent(Seed(None, salt), sess, name).response
            == FlaskApp.JsonReply(200, DefaultsMap()[name])
  {
    DefaultsFilledIn();
    SeedWithServes(salt, DefaultFixture, sess, name);
  }
}
