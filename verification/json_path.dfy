/**
 * Property paths into a JSON value, as the editor's handlers write them
 * (`siteContent.projects.items[i].tags`): reading one, and assigning at one
 * the way JavaScript does, where reaching through a missing property throws.
 */
module JsonPath {
  import opened Wrappers
  import opened JsonValue

  /** `.name` on an object, `[i]` on an array. */
  datatype Step = Key(name: string) | At(index: nat)

  type Path = seq<Step>

  /** Reading `v` along `p`; `None` (undefined) as soon as a step does not
      exist. */
  function Get(v: Json, p: Path): (r: Option<Json>)
    decreases |p|
  {
    if p == [] then Some(v)
    else match p[0]
      case Key(k) => if v.JObject? && k in v.fields then Get(v.fields[k], p[1..]) else None
      case At(i) => if v.JArray? && i < |v.items| then Get(v.items[i], p[1..]) else None
  }

  /** Whether step `s` can be assigned on `v`: any property of an object
      (creating it when absent), or an existing index of an array. */
  predicate Assignable(v: Json, s: Step) {
    match s
    case Key(_) => v.JObject?
    case At(i) => v.JArray? && i < |v.items|
  }

  /** `v.<p> = x`. Every container before the last step must exist; `None`
      is the TypeError JavaScript throws otherwise. */
  function Put(v: Json, p: Path, x: Json): (r: Option<Json>)
    decreases |p|
  {
    if p == [] then Some(x)
    else match p[0]
      case Key(k) =>
        if !v.JObject? then None
        else if |p| == 1 then Some(JObject(v.fields[k := x]))
        else if k !in v.fields then None
        else (match Put(v.fields[k], p[1..], x)
          case None => None
          case Some(w) => Some(JObject(v.fields[k := w])))
      case At(i) =>
        if !v.JArray? || i >= |v.items| then None
        else match Put(v.items[i], p[1..], x)
          case None => None
          case Some(w) => Some(JArray(v.items[i := w]))
  }

  /** An assignment succeeds exactly when the parent of the last step can be
      read and accepts that step. */
  lemma {:induction false} PutDefined(v: Json, p: Path, x: Json)
    requires p != []
    ensures Put(v, p, x).Some? <==>
      Get(v, p[..|p| - 1]).Some? && Assignable(Get(v, p[..|p| - 1]).value, p[|p| - 1])
    decreases |p|
  {
    if |p| > 1 {
      assert p[1..][..|p| - 2] == p[1..|p| - 1];
      assert p[..|p| - 1][1..] == p[1..|p| - 1];
      match p[0]
      case Key(k) =>
        if v.JObject? && k in v.fields {
          PutDefined(v.fields[k], p[1..], x);
        }
      case At(i) =>
        if v.JArray? && i < |v.items| {
          PutDefined(v.items[i], p[1..], x);
        }
    }
  }

  /** What was assigned is what is read back. */
  lemma {:induction false} GetPut(v: Json, p: Path, x: Json)
    requires Put(v, p, x).Some?
    ensures Get(Put(v, p, x).value, p) == Some(x)
    decreases |p|
  {
    if p != [] {
      match p[0]
      case Key(k) =>
        if |p| > 1 {
          GetPut(v.fields[k], p[1..], x);
        }
      case At(i) =>
        GetPut(v.items[i], p[1..], x);
    }
  }

  /** An assignment leaves every path that branches off before its last
      step as it was: `q` shares the prefix `pre` with `p` and then takes a
      different step. */
  lemma {:induction false} PutLeavesOthers(v: Json, pre: Path, s: Step, rest: Path, t: Step, other: Path, x: Json)
    requires s != t
    requires Put(v, pre + [s] + rest, x).Some?
    ensures Get(Put(v, pre + [s] + rest, x).value, pre + [t] + other) == Get(v, pre + [t] + other)
    decreases |pre|
  {
    var p := pre + [s] + rest;
    var q := pre + [t] + other;
    if pre == [] {
      assert p[0] == s && p[1..] == rest;
      assert q[0] == t && q[1..] == other;
    } else {
      assert p[0] == pre[0] && p[1..] == pre[1..] + [s] + rest;
      assert q[0] == pre[0] && q[1..] == pre[1..] + [t] + other;
      match pre[0]
      case Key(k) =>
        PutLeavesOthers(v.fields[k], pre[1..], s, rest, t, other, x);
      case At(i) =>
        PutLeavesOthers(v.items[i], pre[1..], s, rest, t, other, x);
    }
  }
}
