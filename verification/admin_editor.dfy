/**
 * The admin editor's client state (static/js/admin.js): the in-memory mirror
 * `siteContent`, the dirty-section record and the save bar, the edits the
 * section forms make to the mirror, and the per-section and batch saves.
 * The DOM is not modelled; `confirm()` and the server's answers are inputs.
 */
module AdminEditor {
  import opened Wrappers
  import opened JsonValue
  import opened JsonPath
  import L = ListOps

  // ── State ─────────────────────────────────────────────

  predicate NoDup(xs: seq<string>) {
    forall i, j :: 0 <= i < j < |xs| ==> xs[i] != xs[j]
  }

  /** The keys of the `dirty` object, in insertion order (`Object.keys`). */
  type DirtyKeys = xs: seq<string> | NoDup(xs) witness []

  /** `siteContent`, `dirty` and whether `.save-bar` carries `visible`. */
  datatype Editor = Editor(content: map<string, Json>, dirty: DirtyKeys, saveBarVisible: bool)

  /** The page as loaded: the server's content, nothing dirty, no save bar. */
  function Load(content: map<string, Json>): (r: Editor)
    ensures r.content == content && r.dirty == [] && !r.saveBarVisible
  {
    Editor(content, [], false)
  }

  /** `markDirty(section)`: records the section and shows the save bar;
      the mirror is not touched. A section already dirty keeps its place. */
  function MarkDirty(e: Editor, section: string): (r: Editor)
    ensures r.content == e.content && r.saveBarVisible
    ensures forall t :: t in r.dirty <==> t == section || t in e.dirty
    ensures section in e.dirty ==> r.dirty == e.dirty
  {
    if section in e.dirty then e.(saveBarVisible := true)
    else
      var d := e.dirty + [section];
      assert NoDup(d) by {
        forall i, j | 0 <= i < j < |d| ensures d[i] != d[j] {
          if j == |e.dirty| {
            assert d[i] == e.dirty[i];
          }
        }
      }
      Editor(e.content, d, true)
  }

  /** `delete dirty[name]`: the keys without `name`, in the same order. */
  function Without(xs: DirtyKeys, name: string): (r: DirtyKeys)
    ensures forall t :: t in r <==> t in xs && t != name
    ensures name !in xs ==> r == xs
    ensures |r| <= |xs|
  {
    if xs == [] then []
    else
      var rest := Without(xs[1..], name);
      if xs[0] == name then rest
      else
        assert xs[0] !in xs[1..] by {
          forall j | 0 <= j < |xs| - 1 ensures xs[1..][j] != xs[0] {
            assert xs[1..][j] == xs[j + 1];
          }
        }
        var r := [xs[0]] + rest;
        assert NoDup(r) by {
          forall i, j | 0 <= i < j < |r| ensures r[i] != r[j] {
            if i == 0 {
              assert r[j] in rest;
            } else {
              assert r[i] == rest[i - 1] && r[j] == rest[j - 1];
            }
          }
        }
        assert xs == [xs[0]] + xs[1..];
        r
  }

  /** Removing a key from keys laid out as `a + [name] + b` closes the gap. */
  lemma {:induction false} WithoutMiddle(a: seq<string>, name: string, b: seq<string>)
    requires NoDup(a + [name] + b)
    ensures Without(a + [name] + b, name) == a + b
    decreases |a|
  {
    var xs: DirtyKeys := a + [name] + b;
    if a == [] {
      assert xs[0] == name && xs[1..] == b;
      assert name !in b by {
        forall j | 0 <= j < |b| ensures b[j] != name {
          assert b[j] == xs[j + 1];
        }
      }
    } else {
      assert xs[0] == a[0] && xs[1..] == a[1..] + [name] + b;
      assert a[0] != name by {
        assert xs[|a|] == name;
      }
      assert NoDup(a[1..] + [name] + b) by {
        var ys := a[1..] + [name] + b;
        forall i, j | 0 <= i < j < |ys| ensures ys[i] != ys[j] {
          assert ys[i] == xs[i + 1] && ys[j] == xs[j + 1];
        }
      }
      WithoutMiddle(a[1..], name, b);
      assert a == [a[0]] + a[1..];
    }
  }

  // ── Edits ─────────────────────────────────────────────

  /** What a form handler does at its target location. */
  datatype Op =
    /** a text input: `target = v` */
    | SetTo(value: Json)
    /** a toggle: `target = !target` */
    | Flip
    /** an add button: `target.push(item)`, after `if (!target) target = []`
        when `createIfMissing` */
    | Append(item: Json, createIfMissing: bool)
    /** a delete button: `target.splice(index, 1)` once `confirm()` accepts;
        the tag chips' buttons delete without asking */
    | Delete(index: nat, confirmed: bool)
    /** the timeline's up arrow on item `index` */
    | Up(index: nat)
    /** the timeline's down arrow on item `index` */
    | Down(index: nat)
    /** `addTag`: push `input.trim()` onto the tags unless it is blank */
    | AddTag(input: string)

  datatype Effect =
    /** a TypeError: the handler stops before `markDirty` */
    | Throws
    /** the handler returns (or never runs) without touching anything */
    | Nothing
    /** the value assigned at the target */
    | Assign(value: Json)

  /** The array `x.push(...)` appends to: the target itself, or a fresh `[]`
      when the handler first replaces a falsy target. */
  function PushBase(current: Option<Json>, createIfMissing: bool): Option<Json> {
    if createIfMissing && !JsTruthyOpt(current) then Some(JArray([])) else current
  }

  /** The effect of `op` on the value currently at the target (`None`:
      undefined). */
  function OpEffect(current: Option<Json>, op: Op): Effect
  {
    match op
    case SetTo(v) => Assign(v)
    case Flip => Assign(JBool(!JsTruthyOpt(current)))
    case Append(item, createIfMissing) =>
      var base := PushBase(current, createIfMissing);
      if base.Some? && base.value.JArray? then Assign(JArray(L.Push(base.value.items, item))) else Throws
    case Delete(i, confirmed) =>
      if !confirmed then Nothing
      else if current.Some? && current.value.JArray? then Assign(JArray(L.SpliceOne(current.value.items, i)))
      else Throws
    case Up(i) =>
      // the arrow exists only where the rendered list offers it
      if current.Some? && current.value.JArray? && 0 < i < |current.value.items|
      then Assign(JArray(L.MoveUp(current.value.items, i))) else Nothing
    case Down(i) =>
      if current.Some? && current.value.JArray? && i + 1 < |current.value.items|
      then Assign(JArray(L.MoveDown(current.value.items, i))) else Nothing
    case AddTag(input) =>
      var v := L.Trim(input);
      if v == "" then Nothing
      else
        var base := PushBase(current, true);
        if base.Some? && base.value.JArray? then Assign(JArray(L.Push(base.value.items, JString(v)))) else Throws
  }

  /** The location `siteContent[section].<path>`. */
  function Target(section: string, path: Path): Path {
    [Key(section)] + path
  }

  /** One handler run: apply `op` at `siteContent[section].<path>`, then
      `markDirty(section)`. A TypeError anywhere leaves everything as it was. */
  function Edit(e: Editor, section: string, path: Path, op: Op): (r: Editor)
    ensures forall t :: t != section ==> (t in r.content <==> t in e.content)
    ensures forall t :: t != section && t in r.content ==> r.content[t] == e.content[t]
    ensures r != e ==> r.dirty == MarkDirty(e, section).dirty && r.saveBarVisible
    ensures var eff := OpEffect(Get(JObject(e.content), Target(section, path)), op);
      if eff.Assign? && Put(JObject(e.content), Target(section, path), eff.value).Some?
      then Get(JObject(r.content), Target(section, path)) == Some(eff.value)
           && r.dirty == MarkDirty(e, section).dirty && r.saveBarVisible
      else r == e
  {
    var root := JObject(e.content);
    var target := Target(section, path);
    match OpEffect(Get(root, target), op)
    case Assign(x) =>
      (match Put(root, target, x)
       case Some(w) =>
         GetPut(root, target, x);
         assert target[0] == Key(section) && target[1..] == path;
         var m := w.fields;
         MarkDirty(e.(content := m), section)
       case None => e)
    case _ => e
  }

  // ── The form handlers ─────────────────────────────────

  const FactTemplate: Json :=
    JObject(map["emoji" := JString("📌"), "label" := JString("Label"), "value" := JString("Value")])
  const TimelineTemplate: Json :=
    JObject(map["year" := JString("YEAR"), "title" := JString("Title"),
                "description" := JString("Description..."), "badge" := JString("")])
  const SkillTemplate: Json := JObject(map["emoji" := JString("🔧"), "name" := JString("New Skill")])
  const ProjectTemplate: Json :=
    JObject(map["emoji" := JString("📦"), "title" := JString("New Project"),
                "description" := JString("Description..."), "tags" := JArray([]),
                "links" := JArray([]), "featured" := JBool(false)])
  const LinkTemplate: Json := JObject(map["label" := JString("Link →"), "url" := JString("https://")])
  const SocialTemplate: Json :=
    JObject(map["platform" := JString("website"), "label" := JString("🌐 My Site"), "url" := JString("https://")])

  /** A button of the editor, as the section, path and operation its click
      handler runs. */
  datatype Button =
    | AddPhrase | AddParagraph | AddFact | AddTimelineItem | AddSkill | AddProject
    | AddLink(project: nat) | AddSocial
    | TimelineUp(item: nat) | TimelineDown(item: nat)
    | DeleteItem(section: string, list: string, item: nat, confirmed: bool)
    | DeleteLink(project: nat, link: nat, confirmed: bool)
    | RemoveTag(project: nat, tag: nat)
    | ToggleShowStats | ToggleFeatured(project: nat)
    | AddProjectTag(project: nat, input: string)

  /** What a button's click handler runs: the section it edits, the path of
      its target inside that section, and the operation there. */
  datatype Handler = Handler(section: string, path: Path, op: Op)

  function HandlerOf(b: Button): Handler {
    match b
    case AddPhrase => Handler("hero", [Key("typing_phrases")], Append(JString("New phrase"), false))
    case AddParagraph => Handler("about", [Key("paragraphs")], Append(JString("New paragraph..."), false))
    case AddFact => Handler("about", [Key("facts")], Append(FactTemplate, false))
    case AddTimelineItem => Handler("timeline", [Key("items")], Append(TimelineTemplate, false))
    case AddSkill => Handler("skills", [Key("items")], Append(SkillTemplate, false))
    case AddProject => Handler("projects", [Key("items")], Append(ProjectTemplate, false))
    case AddLink(i) => Handler("projects", [Key("items"), At(i), Key("links")], Append(LinkTemplate, true))
    case AddSocial => Handler("contact", [Key("socials")], Append(SocialTemplate, true))
    case TimelineUp(i) => Handler("timeline", [Key("items")], Up(i))
    case TimelineDown(i) => Handler("timeline", [Key("items")], Down(i))
    case DeleteItem(section, list, i, confirmed) => Handler(section, [Key(list)], Delete(i, confirmed))
    case DeleteLink(p, i, confirmed) => Handler("projects", [Key("items"), At(p), Key("links")], Delete(i, confirmed))
    case RemoveTag(p, i) => Handler("projects", [Key("items"), At(p), Key("tags")], Delete(i, true))
    case ToggleShowStats => Handler("github", [Key("show_stats")], Flip)
    case ToggleFeatured(p) => Handler("projects", [Key("items"), At(p), Key("featured")], Flip)
    case AddProjectTag(p, input) => Handler("projects", [Key("items"), At(p), Key("tags")], AddTag(input))
  }

  /** A click: the button's handler runs on the mirror. Only the section the
      button belongs to can change, and a click that changes anything leaves
      that section dirty and the save bar shown. */
  function Press(e: Editor, b: Button): (r: Editor)
    ensures forall t :: t != HandlerOf(b).section ==> (t in r.content <==> t in e.content)
    ensures forall t :: t != HandlerOf(b).section && t in r.content ==> r.content[t] == e.content[t]
    ensures r != e ==> HandlerOf(b).section in r.dirty && r.saveBarVisible
  {
    var h := HandlerOf(b);
    Edit(e, h.section, h.path, h.op)
  }

  /** An add button appends its template at the end of the list and keeps the
      earlier items; the section becomes dirty. Without the list (TypeError)
      nothing changes. */
  lemma AddTimelineItemAppends(e: Editor)
    ensures var r := Press(e, AddTimelineItem);
      var before := Get(JObject(e.content), Target("timeline", [Key("items")]));
      if before.Some? && before.value.JArray?
      then Get(JObject(r.content), Target("timeline", [Key("items")]))
             == Some(JArray(L.Push(before.value.items, TimelineTemplate)))
           && "timeline" in r.dirty
      else r == e
  {
    var t := Target("timeline", [Key("items")]);
    assert t[..|t| - 1] == [Key("timeline")];
    AppendAt(e, "timeline", [Key("items")], TimelineTemplate, false);
  }

  /** The up arrow swaps item `i` with its predecessor when it is offered
      (`i > 0`); otherwise the click cannot happen and nothing changes. */
  lemma TimelineUpSwaps(e: Editor, i: nat)
    ensures var r := Press(e, TimelineUp(i));
      var before := Get(JObject(e.content), Target("timeline", [Key("items")]));
      if before.Some? && before.value.JArray? && 0 < i < |before.value.items|
      then Get(JObject(r.content), Target("timeline", [Key("items")]))
             == Some(JArray(L.MoveUp(before.value.items, i)))
           && "timeline" in r.dirty
      else r == e
  {
    var before := Get(JObject(e.content), Target("timeline", [Key("items")]));
    if before.Some? && before.value.JArray? && 0 < i < |before.value.items| {
      PutDefined(JObject(e.content), Target("timeline", [Key("items")]), JArray(L.MoveUp(before.value.items, i)));
    }
  }

  /** A delete removes exactly item `i` once confirmed; a declined
      confirmation changes nothing. */
  lemma DeleteSplices(e: Editor, section: string, list: string, i: nat, confirmed: bool)
    ensures var r := Press(e, DeleteItem(section, list, i, confirmed));
      var before := Get(JObject(e.content), Target(section, [Key(list)]));
      if confirmed && before.Some? && before.value.JArray?
      then Get(JObject(r.content), Target(section, [Key(list)]))
             == Some(JArray(L.SpliceOne(before.value.items, i)))
           && section in r.dirty
      else r == e
  {
    var before := Get(JObject(e.content), Target(section, [Key(list)]));
    if confirmed && before.Some? && before.value.JArray? {
      PutDefined(JObject(e.content), Target(section, [Key(list)]), JArray(L.SpliceOne(before.value.items, i)));
    }
  }

  /** Any push handler: when the list (or, with `createIfMissing`, a fresh
      `[]` in place of a falsy value) can be pushed to and its holder exists,
      the list becomes the old one plus `item`; otherwise the TypeError
      leaves everything as it was. */
  lemma AppendAt(e: Editor, section: string, path: Path, item: Json, createIfMissing: bool)
    requires path != []
    ensures var t := Target(section, path);
      var r := Edit(e, section, path, Append(item, createIfMissing));
      var base := PushBase(Get(JObject(e.content), t), createIfMissing);
      var holder := Get(JObject(e.content), t[..|t| - 1]);
      if base.Some? && base.value.JArray? && holder.Some? && Assignable(holder.value, t[|t| - 1])
      then Get(JObject(r.content), t) == Some(JArray(L.Push(base.value.items, item))) && section in r.dirty
      else r == e
  {
    var t := Target(section, path);
    var base := PushBase(Get(JObject(e.content), t), createIfMissing);
    if base.Some? && base.value.JArray? {
      PutDefined(JObject(e.content), t, JArray(L.Push(base.value.items, item)));
    }
  }

  /** `addTag` ignores blank input; otherwise it is the push of the trimmed
      text onto the project's tags, creating the list when there is none. */
  lemma AddTagIsAppend(e: Editor, p: nat, input: string)
    ensures L.Trim(input) == "" ==> Press(e, AddProjectTag(p, input)) == e
    ensures L.Trim(input) != "" ==>
      Press(e, AddProjectTag(p, input))
      == Edit(e, "projects", [Key("items"), At(p), Key("tags")], Append(JString(L.Trim(input)), true))
  {
    var path := [Key("items"), At(p), Key("tags")];
    PressAddTag(e, p, input);
    if L.Trim(input) != "" {
      AddTagEffect(input);
      SameEffectSameEdit(e, "projects", path, AddTag(input), Append(JString(L.Trim(input)), true));
    } else {
      BlankTagIgnored(e, path, input);
    }
  }

  lemma AddTagEffect(input: string)
    requires L.Trim(input) != ""
    ensures forall current :: OpEffect(current, AddTag(input)) == OpEffect(current, Append(JString(L.Trim(input)), true))
  {
  }

  lemma PressAddTag(e: Editor, p: nat, input: string)
    ensures Press(e, AddProjectTag(p, input)) == Edit(e, "projects", [Key("items"), At(p), Key("tags")], AddTag(input))
  {
    var h := HandlerOf(AddProjectTag(p, input));
    assert h == Handler("projects", [Key("items"), At(p), Key("tags")], AddTag(input));
  }

  lemma BlankTagIgnored(e: Editor, path: Path, input: string)
    requires L.Trim(input) == ""
    ensures Edit(e, "projects", path, AddTag(input)) == e
  {
    assert OpEffect(Get(JObject(e.content), Target("projects", path)), AddTag(input)) == Nothing;
  }

  lemma SameEffectSameEdit(e: Editor, section: string, path: Path, op1: Op, op2: Op)
    requires forall current :: OpEffect(current, op1) == OpEffect(current, op2)
    ensures Edit(e, section, path, op1) == Edit(e, section, path, op2)
  {
  }

  /** Within the edited section too, an edit touches only its target: a
      location whose path leaves the target's path at some step `i` reads as
      it did before. */
  lemma EditLeavesOthers(e: Editor, section: string, path: Path, op: Op, i: nat, t: Step, other: Path)
    requires i < |Target(section, path)| && t != Target(section, path)[i]
    ensures var q := Target(section, path)[..i] + [t] + other;
      Get(JObject(Edit(e, section, path, op).content), q) == Get(JObject(e.content), q)
  {
    var p := Target(section, path);
    var root := JObject(e.content);
    var eff := OpEffect(Get(root, p), op);
    if eff.Assign? && Put(root, p, eff.value).Some? {
      assert p == p[..i] + [p[i]] + p[i + 1..];
      PutLeavesOthers(root, p[..i], p[i], p[i + 1..], t, other, eff.value);
      assert p[0] == Key(section);
      assert Put(root, p, eff.value).value.JObject?;
    }
  }

  /** A toggle stores the negation of the flag's truthiness. */
  lemma ToggleNegates(e: Editor)
    ensures var r := Press(e, ToggleShowStats);
      var before := Get(JObject(e.content), Target("github", [Key("show_stats")]));
      var github := Get(JObject(e.content), [Key("github")]);
      if github.Some? && github.value.JObject?
      then Get(JObject(r.content), Target("github", [Key("show_stats")])) == Some(JBool(!JsTruthyOpt(before)))
           && "github" in r.dirty
      else r == e
  {
    var path := Target("github", [Key("show_stats")]);
    var before := Get(JObject(e.content), path);
    assert path[..|path| - 1] == [Key("github")];
    PutDefined(JObject(e.content), path, JBool(!JsTruthyOpt(before)));
  }

  // ── Saving ────────────────────────────────────────────

  /** How `await res.json()` ends for a save: the parsed reply body, or an
      exception (network failure, a reply that is not JSON) caught by the
      handler's `catch`. */
  datatype SaveReply = Answered(body: Json) | Unreadable

  /** `data.ok` is truthy. */
  predicate Succeeded(reply: SaveReply) {
    reply.Answered? && JsTruthyOpt(Prop(reply.body, "ok"))
  }

  /** The body `saveSection(name)` sends: `JSON.stringify(siteContent[name])`,
      which is no body at all when the mirror lacks the section. */
  function SaveBody(e: Editor, name: string): Option<Json> {
    if name in e.content then Some(e.content[name]) else None
  }

  /** `saveSection(name)` once its request has been answered: on success only
      `name` leaves the dirty record, and the save bar hides when nothing is
      left; on any failure nothing changes. The mirror is never touched. */
  function SaveSection(e: Editor, name: string, reply: SaveReply): (r: Editor)
    ensures r.content == e.content
    ensures Succeeded(reply) ==> forall t :: t in r.dirty <==> t in e.dirty && t != name
    ensures Succeeded(reply) ==> (r.saveBarVisible <==> e.saveBarVisible && r.dirty != [])
    ensures !Succeeded(reply) ==> r == e
  {
    if Succeeded(reply) then
      var d := Without(e.dirty, name);
      Editor(e.content, d, if d == [] then false else e.saveBarVisible)
    else e
  }

  /** An edit followed by a successful save of its section leaves the dirty
      record as it was before the edit, when that section was clean. */
  lemma EditThenSave(e: Editor, section: string, path: Path, op: Op, body: Json)
    requires section !in e.dirty
    requires JsTruthyOpt(Prop(body, "ok"))
    ensures SaveSection(Edit(e, section, path, op), section, Answered(body)).dirty == e.dirty
  {
    var r := Edit(e, section, path, op);
    if r != e {
      assert r.dirty == e.dirty + [section];
      assert e.dirty + [section] == e.dirty + [section] + [];
      WithoutMiddle(e.dirty, section, []);
    }
  }

  /** From a fresh page, one edit and a successful save of its section
      leave the editor clean: nothing dirty and the save bar hidden, with the
      edit kept in the mirror. */
  lemma LoadEditSaveIsClean(content: map<string, Json>, section: string, path: Path, op: Op, body: Json)
    requires JsTruthyOpt(Prop(body, "ok"))
    ensures var edited := Edit(Load(content), section, path, op);
      var saved := SaveSection(edited, section, Answered(body));
      saved.dirty == [] && !saved.saveBarVisible && saved.content == edited.content
  {
    EditThenSave(Load(content), section, path, op, body);
  }

  /** The keys of `sections` whose save did not succeed, in order. */
  function Unsaved(sections: seq<string>, reply: string -> SaveReply): seq<string> {
    if sections == [] then []
    else
      var last := sections[|sections| - 1];
      Unsaved(sections[..|sections| - 1], reply) + (if Succeeded(reply(last)) then [] else [last])
  }

  /** Whether any of `sections` saved successfully. */
  predicate AnySaved(sections: seq<string>, reply: string -> SaveReply) {
    exists i :: 0 <= i < |sections| && Succeeded(reply(sections[i]))
  }

  lemma AnySavedSnoc(sections: seq<string>, s: string, reply: string -> SaveReply)
    ensures AnySaved(sections + [s], reply) <==> AnySaved(sections, reply) || Succeeded(reply(s))
  {
    var xs := sections + [s];
    if AnySaved(sections, reply) {
      var i :| 0 <= i < |sections| && Succeeded(reply(sections[i]));
      assert xs[i] == sections[i];
    }
    if Succeeded(reply(s)) {
      assert xs[|sections|] == s;
    }
    if AnySaved(xs, reply) {
      var i :| 0 <= i < |xs| && Succeeded(reply(xs[i]));
      if i < |sections| {
        assert xs[i] == sections[i];
      }
    }
  }

  lemma {:induction false} UnsavedSubset(sections: seq<string>, reply: string -> SaveReply)
    ensures forall t :: t in Unsaved(sections, reply) <==> t in sections && !Succeeded(reply(t))
  {
    if sections != [] {
      var init := sections[..|sections| - 1];
      UnsavedSubset(init, reply);
      assert sections == init + [sections[|sections| - 1]];
    }
  }

  /** One round of the batch save: the dirty keys before and after saving
      `sections[i]` keep the shape "failed so far, then not yet tried". */
  lemma SaveStep(sections: seq<string>, i: nat, reply: string -> SaveReply, dirty: DirtyKeys)
    requires i < |sections| && NoDup(sections)
    requires dirty == Unsaved(sections[..i], reply) + sections[i..]
    ensures var s := sections[i];
      (if Succeeded(reply(s)) then Without(dirty, s) else dirty)
      == Unsaved(sections[..i + 1], reply) + sections[i + 1..]
  {
    var s := sections[i];
    var done := Unsaved(sections[..i], reply);
    var rest := sections[i + 1..];
    assert sections[..i + 1][..i] == sections[..i] && sections[..i + 1][i] == s;
    assert sections[i..] == [s] + rest;
    assert dirty == done + [s] + rest;
    UnsavedSubset(sections[..i], reply);
    NotBefore(sections, i);
    if Succeeded(reply(s)) {
      WithoutMiddle(done, s, rest);
    }
  }

  lemma NotBefore(xs: seq<string>, i: nat)
    requires i < |xs| && NoDup(xs)
    ensures xs[i] !in xs[..i]
  {
  }

  /** Where the batch save stands after its first `i` sections: those that
      failed so far, then those not yet tried, and the save bar hidden only
      if some save succeeded and emptied the record. */
  predicate SaveProgress(e: Editor, sections: seq<string>, i: nat, reply: string -> SaveReply, r: Editor)
    requires i <= |sections|
  {
    && r.content == e.content
    && r.dirty == Unsaved(sections[..i], reply) + sections[i..]
    && r.saveBarVisible ==
         if AnySaved(sections[..i], reply) then e.saveBarVisible && r.dirty != [] else e.saveBarVisible
  }

  lemma SaveProgressStep(e: Editor, sections: seq<string>, i: nat, reply: string -> SaveReply, r: Editor)
    requires i < |sections| && NoDup(sections)
    requires SaveProgress(e, sections, i, reply, r)
    ensures SaveProgress(e, sections, i + 1, reply, SaveSection(r, sections[i], reply(sections[i])))
  {
    var s := sections[i];
    SaveStep(sections, i, reply, r.dirty);
    AnySavedSnoc(sections[..i], s, reply);
    assert sections[..i + 1] == sections[..i] + [s];
  }

  lemma SaveProgressStart(e: Editor, reply: string -> SaveReply)
    ensures SaveProgress(e, e.dirty, 0, reply, e)
  {
    assert e.dirty[..0] == [] && e.dirty[0..] == e.dirty;
  }

  lemma SaveProgressDone(e: Editor, reply: string -> SaveReply, r: Editor)
    requires SaveProgress(e, e.dirty, |e.dirty|, reply, r)
    ensures r.content == e.content
    ensures r.dirty == Unsaved(e.dirty, reply)
    ensures forall t :: t in r.dirty <==> t in e.dirty && !Succeeded(reply(t))
    ensures r.saveBarVisible == if AnySaved(e.dirty, reply) then e.saveBarVisible && r.dirty != [] else e.saveBarVisible
  {
    assert e.dirty[..|e.dirty|] == e.dirty;
    assert e.dirty[|e.dirty|..] == [];
    UnsavedSubset(e.dirty, reply);
  }

  /** Saving `sections` one after another, each once its predecessor's
      request has settled. */
  function SaveInOrder(e: Editor, sections: seq<string>, reply: string -> SaveReply): Editor {
    if sections == [] then e
    else
      var last := sections[|sections| - 1];
      SaveSection(SaveInOrder(e, sections[..|sections| - 1], reply), last, reply(last))
  }

  lemma {:induction false} SaveInOrderProgress(e: Editor, reply: string -> SaveReply, i: nat)
    requires i <= |e.dirty|
    ensures SaveProgress(e, e.dirty, i, reply, SaveInOrder(e, e.dirty[..i], reply))
  {
    if i == 0 {
      SaveProgressStart(e, reply);
    } else {
      SaveInOrderProgress(e, reply, i - 1);
      assert e.dirty[..i][..i - 1] == e.dirty[..i - 1];
      SaveProgressStep(e, e.dirty, i - 1, reply, SaveInOrder(e, e.dirty[..i - 1], reply));
    }
  }

  /** Saving every dirty section in order leaves exactly the failed ones
      dirty, in their order; the save bar hides only when some save
      succeeded and nothing is left. */
  lemma SaveInOrderMeaning(e: Editor, reply: string -> SaveReply)
    ensures var r := SaveInOrder(e, e.dirty, reply);
      && r.content == e.content
      && r.dirty == Unsaved(e.dirty, reply)
      && (forall t :: t in r.dirty <==> t in e.dirty && !Succeeded(reply(t)))
      && r.saveBarVisible == if AnySaved(e.dirty, reply) then e.saveBarVisible && r.dirty != [] else e.saveBarVisible
  {
    SaveInOrderProgress(e, reply, |e.dirty|);
    assert e.dirty[..|e.dirty|] == e.dirty;
    SaveProgressDone(e, reply, SaveInOrder(e, e.dirty, reply));
  }

  /** `saveAllDirty()`: saves each section that was dirty when it started,
      once and in order, awaiting each reply; `reply(s)` is how the save of
      `s` ends. Afterwards the dirty record holds exactly the sections whose
      save failed, still in order. */
  method SaveAllDirty(e: Editor, reply: string -> SaveReply) returns (r: Editor, attempted: seq<string>)
    ensures attempted == e.dirty
    ensures r.content == e.content
    ensures r.dirty == Unsaved(e.dirty, reply)
    ensures forall t :: t in r.dirty <==> t in e.dirty && !Succeeded(reply(t))
    ensures r.saveBarVisible == if AnySaved(e.dirty, reply) then e.saveBarVisible && r.dirty != [] else e.saveBarVisible
  {
    var sections: seq<string> := e.dirty;
    r := e;
    attempted := [];
    var i := 0;
    while i < |sections|
      invariant 0 <= i <= |sections|
      invariant attempted == sections[..i]
      invariant r == SaveInOrder(e, sections[..i], reply)
    {
      var s := sections[i];
      assert sections[..i + 1][..i] == sections[..i];
      r := SaveSection(r, s, reply(s));
      attempted := attempted + [s];
      i := i + 1;
    }
    assert sections[..i] == sections;
    SaveInOrderMeaning(e, reply);
  }
}
