/**
 * The array mutations the admin editor performs on a section's lists:
 * `push` of a template item, `splice(i, 1)` after a confirmed delete, the
 * destructuring swap behind the timeline's up and down arrows, and the
 * `String.prototype.trim` that guards `addTag`.
 */
module ListOps {

  // ── push / splice ─────────────────────────────────────

  /** `xs.push(x)`: one more item at the end, the earlier ones untouched. */
  function Push<T>(xs: seq<T>, x: T): (r: seq<T>)
    ensures |r| == |xs| + 1
    ensures r[|xs|] == x
    ensures forall j :: 0 <= j < |xs| ==> r[j] == xs[j]
    ensures multiset(r) == multiset(xs) + multiset{x}
  {
    xs + [x]
  }

  /** `xs.splice(i, 1)`: removes the item at `i` and shifts the later ones
      left; an index past the end removes nothing. */
  function SpliceOne<T>(xs: seq<T>, i: nat): (r: seq<T>)
    ensures i < |xs| ==> |r| == |xs| - 1
    ensures i < |xs| ==> forall j :: 0 <= j < i ==> r[j] == xs[j]
    ensures i < |xs| ==> forall j :: i <= j < |r| ==> r[j] == xs[j + 1]
    ensures i < |xs| ==> multiset(r) + multiset{xs[i]} == multiset(xs)
    ensures i >= |xs| ==> r == xs
  {
    if i < |xs| then
      assert xs == xs[..i] + [xs[i]] + xs[i + 1..];
      xs[..i] + xs[i + 1..]
    else xs
  }

  /** Deleting what was just pushed gives back the list. */
  lemma SplicePush<T>(xs: seq<T>, x: T)
    ensures SpliceOne(Push(xs, x), |xs|) == xs
  {
    assert Push(xs, x)[..|xs|] == xs;
  }

  // ── adjacent swap ─────────────────────────────────────

  /** `[xs[i], xs[i + 1]] = [xs[i + 1], xs[i]]`. */
  function SwapAdjacent<T>(xs: seq<T>, i: nat): (r: seq<T>)
    requires i + 1 < |xs|
    ensures |r| == |xs|
    ensures r[i] == xs[i + 1] && r[i + 1] == xs[i]
    ensures forall j :: 0 <= j < |xs| && j != i && j != i + 1 ==> r[j] == xs[j]
    ensures multiset(r) == multiset(xs)
  {
    xs[i := xs[i + 1]][i + 1 := xs[i]]
  }

  /** Swapping the same pair twice restores the list. */
  lemma SwapTwice<T>(xs: seq<T>, i: nat)
    requires i + 1 < |xs|
    ensures SwapAdjacent(SwapAdjacent(xs, i), i) == xs
  {
  }

  /** The "up" arrow of item `i`, rendered only for `i > 0`: swaps items
      `i - 1` and `i`. Where the arrow is not rendered nothing happens. */
  function MoveUp<T>(xs: seq<T>, i: nat): (r: seq<T>)
    ensures |r| == |xs| && multiset(r) == multiset(xs)
    ensures 0 < i < |xs| ==> r[i - 1] == xs[i] && r[i] == xs[i - 1]
    ensures 0 < i < |xs| ==> forall j :: 0 <= j < |xs| && j != i - 1 && j != i ==> r[j] == xs[j]
    ensures !(0 < i < |xs|) ==> r == xs
  {
    if 0 < i < |xs| then SwapAdjacent(xs, i - 1) else xs
  }

  /** The "down" arrow of item `i`, rendered only for `i < length - 1`:
      swaps items `i` and `i + 1`. */
  function MoveDown<T>(xs: seq<T>, i: nat): (r: seq<T>)
    ensures |r| == |xs| && multiset(r) == multiset(xs)
    ensures i + 1 < |xs| ==> r[i] == xs[i + 1] && r[i + 1] == xs[i]
    ensures i + 1 < |xs| ==> forall j :: 0 <= j < |xs| && j != i && j != i + 1 ==> r[j] == xs[j]
    ensures !(i + 1 < |xs|) ==> r == xs
  {
    if i + 1 < |xs| then SwapAdjacent(xs, i) else xs
  }

  /** Moving an item down and then the same item back up is the identity. */
  lemma MoveDownThenUp<T>(xs: seq<T>, i: nat)
    requires i + 1 < |xs|
    ensures MoveUp(MoveDown(xs, i), i + 1) == xs
  {
    SwapTwice(xs, i);
  }

  // ── trim ──────────────────────────────────────────────

  /** ECMAScript WhiteSpace and LineTerminator code points, the set `trim`
      strips. */
  predicate IsJsSpace(c: char) {
    || c == '\t' || c == '\n' || c == '\U{000B}' || c == '\U{000C}' || c == '\r' || c == ' '
    || c == '\U{00A0}' || c == '\U{1680}' || ('\U{2000}' <= c <= '\U{200A}')
    || c == '\U{2028}' || c == '\U{2029}' || c == '\U{202F}' || c == '\U{205F}'
    || c == '\U{3000}' || c == '\U{FEFF}'
  }

  predicate AllSpace(s: string) {
    forall k :: 0 <= k < |s| ==> IsJsSpace(s[k])
  }

  lemma AllSpaceCons(c: char, t: string)
    requires IsJsSpace(c) && AllSpace(t)
    ensures AllSpace([c] + t)
  {
    assert forall k :: 0 < k <= |t| ==> ([c] + t)[k] == t[k - 1];
  }

  lemma BlankPrefixStep(s: string, k: nat)
    requires 0 < k <= |s| && IsJsSpace(s[0]) && AllSpace(s[1..][..k - 1])
    ensures AllSpace(s[..k])
  {
    AllSpaceCons(s[0], s[1..][..k - 1]);
    assert s[..k] == [s[0]] + s[1..][..k - 1];
  }

  lemma AllSpaceSnoc(t: string, c: char)
    requires AllSpace(t) && IsJsSpace(c)
    ensures AllSpace(t + [c])
  {
    assert forall k :: 0 <= k < |t| ==> (t + [c])[k] == t[k];
  }

  /** Two blank halves make a blank whole. */
  lemma AllSpaceSplit(s: string, a: nat)
    requires a <= |s| && AllSpace(s[..a]) && AllSpace(s[a..])
    ensures AllSpace(s)
  {
    forall k | 0 <= k < |s| ensures IsJsSpace(s[k]) {
      if k < a {
        assert s[..a][k] == s[k];
      } else {
        assert s[a..][k - a] == s[k];
      }
    }
  }

  function TrimStart(s: string): (r: string)
    ensures |r| <= |s| && r == s[|s| - |r|..]
    ensures AllSpace(s[..|s| - |r|])
    ensures r != [] ==> !IsJsSpace(r[0])
  {
    if s != [] && IsJsSpace(s[0]) then
      var r := TrimStart(s[1..]);
      var k := |s| - |r|;
      BlankPrefixStep(s, k);
      r
    else s
  }

  function TrimEnd(s: string): (r: string)
    ensures |r| <= |s| && r == s[..|r|]
    ensures AllSpace(s[|r|..])
    ensures r != [] ==> !IsJsSpace(r[|r| - 1])
  {
    if s != [] && IsJsSpace(s[|s| - 1]) then
      var init := s[..|s| - 1];
      var r := TrimEnd(init);
      assert r == s[..|r|];
      assert s[|r|..] == init[|r|..] + [s[|s| - 1]];
      AllSpaceSnoc(init[|r|..], s[|s| - 1]);
      r
    else s
  }

  /** Cutting the suffix `s[a..]` at `n` cuts `s` at `a + n`. */
  lemma SliceOfSuffix(s: string, a: nat, n: nat)
    requires a + n <= |s|
    ensures s[a..][..n] == s[a..a + n] && s[a..][n..] == s[a + n..]
  {
  }

  /** `r` is `s[a..b]` and everything of `s` outside that slice is blank. */
  predicate BlankAround(s: string, r: string, a: nat, b: nat) {
    a <= b <= |s| && r == s[a..b] && AllSpace(s[..a]) && AllSpace(s[b..])
  }

  /** `s.trim()`: the slice of `s` left after dropping the leading and
      trailing whitespace. */
  function Trim(s: string): (r: string)
    ensures exists a, b :: BlankAround(s, r, a, b)
    ensures r != [] ==> !IsJsSpace(r[0]) && !IsJsSpace(r[|r| - 1])
  {
    var t := TrimStart(s);
    var r := TrimEnd(t);
    var a := |s| - |t|;
    var b := a + |r|;
    SliceOfSuffix(s, a, |r|);
    assert BlankAround(s, r, a, b);
    assert r != [] ==> r[0] == t[0];
    r
  }

  /** `trim()` yields the empty string exactly for blank input. */
  lemma {:induction false} TrimEmptyIffBlank(s: string)
    ensures Trim(s) == "" <==> AllSpace(s)
  {
    var a, b :| BlankAround(s, Trim(s), a, b);
    if Trim(s) == "" {
      AllSpaceSplit(s, a);
    }
  }

  /** Trimming twice is trimming once. */
  lemma {:induction false} TrimIdempotent(s: string)
    ensures Trim(Trim(s)) == Trim(s)
  {
    var t := Trim(s);
    TrimStartNoop(t);
    TrimEndNoop(TrimStart(t));
  }

  lemma TrimStartNoop(s: string)
    requires s != [] ==> !IsJsSpace(s[0])
    ensures TrimStart(s) == s
  {
  }

  lemma TrimEndNoop(s: string)
    requires s != [] ==> !IsJsSpace(s[|s| - 1])
    ensures TrimEnd(s) == s
  {
  }
}
