/**
 * `PythonPackageConfigSection.language_versions`: the `languageVersions`
 * option lower-cased, `universal` on its own when it is listed, otherwise
 * every entry checked against `X(.Y(.Z))`, split into components padded
 * with `x`, ordered by three stable sorts (on the third, the second, then
 * the first component) and rendered back.
 */
module LanguageVersions {
  import opened Wrappers
  import opened Text
  import opened Config

  const DefaultLanguageVersion := "2.7.9"
  const Universal := "universal"

  predicate IsDigit(c: char)
  {
    '0' <= c <= '9'
  }

  predicate AllDigits(s: string)
  {
    forall i :: 0 <= i < |s| ==> IsDigit(s[i])
  }

  /**
   * The whole string matches `\d+(\.\d*){0,2}`: a digit first, then only
   * digits and at most two dots.
   */
  predicate VersionShape(v: string)
  {
    && v != []
    && IsDigit(v[0])
    && (forall i :: 0 <= i < |v| ==> IsDigit(v[i]) || v[i] == '.')
    && Count(v, '.') <= 2
  }

  /** `re.match(r'^\d+(\.\d*){0,2}$', v)`; `$` also matches before a final line break. */
  predicate MatchesVersion(v: string)
  {
    VersionShape(v) || (v != [] && v[|v| - 1] == '\n' && VersionShape(v[..|v| - 1]))
  }

  // ---------------------------------------------------------------------
  // Components

  /** Drops the leading non-digits: strictly shorter when there are some. */
  function SkipNonDigits(s: string): (r: string)
    ensures |r| <= |s|
    ensures s != [] && !IsDigit(s[0]) ==> |r| < |s|
  {
    if s != [] && !IsDigit(s[0]) then SkipNonDigits(s[1..]) else s
  }

  /** `re.split(r'\D+', s)`: the digit runs, with "" where a non-digit run starts or ends `s`. */
  function SplitNonDigits(s: string): (parts: seq<string>)
    ensures |parts| >= 1
    decreases |s|
  {
    if s == [] then [""]
    else if IsDigit(s[0]) then
      var rest := SplitNonDigits(s[1..]);
      [[s[0]] + rest[0]] + rest[1..]
    else [""] + SplitNonDigits(SkipNonDigits(s))
  }

  /** `while len(c) < 3: c.append('x')` */
  function Pad(parts: seq<string>): (r: seq<string>)
    ensures |r| == if |parts| >= 3 then |parts| else 3
    ensures parts <= r
    ensures forall i :: |parts| <= i < |r| ==> r[i] == "x"
    decreases 3 - |parts|
  {
    if |parts| >= 3 then parts else Pad(parts + ["x"])
  }

  function Components(v: string): seq<string>
  {
    Pad(SplitNonDigits(v))
  }

  /** `".".join(c).replace(".x", "")` */
  function Render(c: seq<string>): string
  {
    ReplaceAll(Join(c, "."), ".x", "")
  }

  // ---------------------------------------------------------------------
  // Three stable sorts

  /** `itemgetter(k)`; every list sorted here has at least three components. */
  function Key(c: seq<string>, k: nat): string
  {
    if k < |c| then c[k] else ""
  }

  /** Puts `x` after every element whose key is not greater than its own. */
  function InsertBy(t: seq<seq<string>>, x: seq<string>, k: nat): seq<seq<string>>
  {
    if t == [] then [x]
    else if StrLt(Key(x, k), Key(t[0], k)) then [x] + t
    else [t[0]] + InsertBy(t[1..], x, k)
  }

  /** `sorted(s, key=itemgetter(k))`, a stable sort. */
  function SortBy(s: seq<seq<string>>, k: nat): seq<seq<string>>
  {
    if s == [] then [] else InsertBy(SortBy(s[..|s| - 1], k), s[|s| - 1], k)
  }

  /**
   * The stable sorts on components 2, 1, ..., `k` in turn: `SortFrom(s, 0)`
   * is `sorted(sorted(sorted(s, key=itemgetter(2)), key=itemgetter(1)),
   * key=itemgetter(0))`.
   */
  function SortFrom(s: seq<seq<string>>, k: nat): seq<seq<string>>
    decreases 3 - k
  {
    if k >= 3 then s else SortBy(SortFrom(s, k + 1), k)
  }

  /** Python's tuple order on components `k`, `k + 1`, ..., `2`. */
  predicate LexLe(a: seq<string>, b: seq<string>, k: nat)
    decreases 3 - k
  {
    k >= 3 || StrLt(Key(a, k), Key(b, k)) || (Key(a, k) == Key(b, k) && LexLe(a, b, k + 1))
  }

  predicate SortedFrom(s: seq<seq<string>>, k: nat)
  {
    forall i, j :: 0 <= i < j < |s| ==> LexLe(s[i], s[j], k)
  }

  lemma LexLeKey(a: seq<string>, b: seq<string>, k: nat)
    requires k < 3 && LexLe(a, b, k)
    ensures StrLe(Key(a, k), Key(b, k))
  {
    if !StrLt(Key(a, k), Key(b, k)) {
      StrLeTotal(Key(a, k), Key(a, k));
    }
  }

  lemma StrLtLe(a: string, b: string, c: string)
    requires StrLt(a, b) && StrLe(b, c)
    ensures StrLt(a, c)
  {
    StrLeTransitive(a, b, c);
    if a == c {
      StrLeAntisymmetric(a, b);
    }
  }

  lemma SortedTail(t: seq<seq<string>>, k: nat)
    requires t != [] && SortedFrom(t, k)
    ensures SortedFrom(t[1..], k)
  {
    forall i, j | 0 <= i < j < |t[1..]| ensures LexLe(t[1..][i], t[1..][j], k) {
      assert t[1..][i] == t[i + 1] && t[1..][j] == t[j + 1];
    }
  }

  /** `x` placed before `t` keeps the order when its key is below the first key. */
  lemma SortedFront(x: seq<string>, t: seq<seq<string>>, k: nat)
    requires k < 3 && t != [] && SortedFrom(t, k)
    requires StrLt(Key(x, k), Key(t[0], k))
    ensures SortedFrom([x] + t, k)
  {
    var r := [x] + t;
    forall j | 0 <= j < |t| ensures LexLe(x, t[j], k) {
      if j > 0 {
        LexLeKey(t[0], t[j], k);
        StrLtLe(Key(x, k), Key(t[0], k), Key(t[j], k));
      }
    }
    forall i, j | 0 <= i < j < |r| ensures LexLe(r[i], r[j], k) {
      assert r[j] == t[j - 1];
      if i > 0 {
        assert r[i] == t[i - 1];
      }
    }
  }

  /** `y` placed before `rest` keeps the order when it is below every element of it. */
  lemma SortedCons(y: seq<string>, rest: seq<seq<string>>, k: nat)
    requires SortedFrom(rest, k)
    requires forall e :: e in rest ==> LexLe(y, e, k)
    ensures SortedFrom([y] + rest, k)
  {
    var r := [y] + rest;
    forall i, j | 0 <= i < j < |r| ensures LexLe(r[i], r[j], k) {
      assert r[j] == rest[j - 1];
      if i > 0 {
        assert r[i] == rest[i - 1];
      }
    }
  }

  lemma {:induction false} InsertBySorted(t: seq<seq<string>>, x: seq<string>, k: nat)
    requires k < 3
    requires SortedFrom(t, k)
    requires forall e :: e in t ==> LexLe(e, x, k + 1)
    ensures SortedFrom(InsertBy(t, x, k), k)
    ensures multiset(InsertBy(t, x, k)) == multiset(t) + multiset{x}
  {
    if t == [] {
    } else if StrLt(Key(x, k), Key(t[0], k)) {
      SortedFront(x, t, k);
    } else {
      var rest := InsertBy(t[1..], x, k);
      assert SortedFrom(rest, k) && multiset(rest) == multiset(t[1..]) + multiset{x} by {
        SortedTail(t, k);
        assert forall e :: e in t[1..] ==> e in t;
        InsertBySorted(t[1..], x, k);
      }
      assert LexLe(t[0], x, k) by {
        StrLeTotal(Key(x, k), Key(t[0], k));
        assert t[0] in t;
      }
      HeadBelowRest(t, x, rest, k);
      SortedCons(t[0], rest, k);
      assert t == [t[0]] + t[1..];
    }
  }

  /** The head of a sorted list, not above `x`, is below everything of the tail with `x` added. */
  lemma HeadBelowRest(t: seq<seq<string>>, x: seq<string>, rest: seq<seq<string>>, k: nat)
    requires t != [] && SortedFrom(t, k) && LexLe(t[0], x, k)
    requires multiset(rest) == multiset(t[1..]) + multiset{x}
    ensures forall e :: e in rest ==> LexLe(t[0], e, k)
  {
    forall e | e in rest ensures LexLe(t[0], e, k) {
      assert e in multiset(rest);
      if e != x {
        assert e in multiset(t[1..]);
        var m :| 0 <= m < |t[1..]| && t[1..][m] == e;
        assert t[m + 1] == e;
      }
    }
  }

  /** In a sorted list every earlier element is below the last one. */
  lemma BelowLast(s: seq<seq<string>>, t: seq<seq<string>>, k: nat)
    requires s != [] && SortedFrom(s, k)
    requires multiset(t) == multiset(s[..|s| - 1])
    ensures forall e :: e in t ==> LexLe(e, s[|s| - 1], k)
  {
    var init := s[..|s| - 1];
    forall e | e in t ensures LexLe(e, s[|s| - 1], k) {
      assert e in multiset(init);
      var m :| 0 <= m < |init| && init[m] == e;
      assert s[m] == e;
    }
  }

  /** A list in order keeps its order without its last element. */
  lemma SortedInit(s: seq<seq<string>>, k: nat)
    requires s != [] && SortedFrom(s, k)
    ensures SortedFrom(s[..|s| - 1], k)
  {
    var init := s[..|s| - 1];
    forall i, j | 0 <= i < j < |init| ensures LexLe(init[i], init[j], k) {
      assert init[i] == s[i] && init[j] == s[j];
    }
  }

  /** A stable sort on component `k` of a list already in order on the later components. */
  lemma {:induction false} SortByLex(s: seq<seq<string>>, k: nat)
    requires k < 3
    requires SortedFrom(s, k + 1)
    ensures SortedFrom(SortBy(s, k), k)
    ensures multiset(SortBy(s, k)) == multiset(s)
  {
    if s != [] {
      var init := s[..|s| - 1];
      var x := s[|s| - 1];
      var t := SortBy(init, k);
      assert SortedFrom(t, k) && multiset(t) == multiset(init) by {
        SortedInit(s, k + 1);
        SortByLex(init, k);
      }
      BelowLast(s, t, k + 1);
      InsertBySorted(t, x, k);
      assert s == init + [x];
    }
  }

  /**
   * The three sorts together order the list by (first, second, third)
   * component and keep every entry: sorting on the later components first
   * and relying on stability is a sort on the tuple.
   */
  lemma {:induction false} SortFromSorted(s: seq<seq<string>>, k: nat)
    requires k <= 3
    ensures SortedFrom(SortFrom(s, k), k)
    ensures multiset(SortFrom(s, k)) == multiset(s)
    decreases 3 - k
  {
    if k < 3 {
      SortFromSorted(s, k + 1);
      SortByLex(SortFrom(s, k + 1), k);
    }
  }

  // ---------------------------------------------------------------------
  // The property

  function LowerAll(xs: seq<string>): (r: seq<string>)
    ensures |r| == |xs|
    ensures forall i :: 0 <= i < |xs| ==> r[i] == Lower(xs[i])
  {
    if xs == [] then [] else [Lower(xs[0])] + LowerAll(xs[1..])
  }

  /** The lower-cased entries of `languageVersions`, ["2.7.9"] when there are none. */
  function RequestedVersions(sec: Section): seq<string>
  {
    LowerAll(ListProperty(sec, "languageVersions", Some([DefaultLanguageVersion]), false).value)
  }

  /** The first entry the pattern rejects. */
  function FirstBad(vs: seq<string>): Option<string>
  {
    if vs == [] then None
    else if !MatchesVersion(vs[0]) then Some(vs[0])
    else FirstBad(vs[1..])
  }

  function ComponentsAll(vs: seq<string>): (r: seq<seq<string>>)
    ensures |r| == |vs|
  {
    if vs == [] then [] else ComponentsAll(vs[..|vs| - 1]) + [Components(vs[|vs| - 1])]
  }

  function RenderAll(cs: seq<seq<string>>): (r: seq<string>)
    ensures |r| == |cs|
    ensures forall i :: 0 <= i < |cs| ==> r[i] == Render(cs[i])
  {
    if cs == [] then [] else [Render(cs[0])] + RenderAll(cs[1..])
  }

  function NormaliseVersions(vs: seq<string>): Result<seq<string>, ConfigError>
  {
    if Universal in vs then Ok([Universal])
    else match FirstBad(vs)
      case Some(v) => Err(BadLanguageVersion(v))
      case None => Ok(RenderAll(SortFrom(ComponentsAll(vs), 0)))
  }

  function LanguageVersionsOf(sec: Section): Result<seq<string>, ConfigError>
  {
    NormaliseVersions(RequestedVersions(sec))
  }

  lemma ComponentsAllStep(vs: seq<string>, i: nat)
    requires i < |vs|
    ensures ComponentsAll(vs[..i + 1]) == ComponentsAll(vs[..i]) + [Components(vs[i])]
  {
    assert vs[..i + 1][..i] == vs[..i];
  }

  lemma {:induction false} FirstBadAt(vs: seq<string>, i: nat)
    requires i < |vs| && !MatchesVersion(vs[i])
    requires forall j :: 0 <= j < i ==> MatchesVersion(vs[j])
    ensures FirstBad(vs) == Some(vs[i])
  {
    if i > 0 {
      FirstBadAt(vs[1..], i - 1);
    }
  }

  lemma {:induction false} FirstBadNone(vs: seq<string>)
    requires forall j :: 0 <= j < |vs| ==> MatchesVersion(vs[j])
    ensures FirstBad(vs) == None
  {
    if vs != [] {
      FirstBadNone(vs[1..]);
    }
  }

  /**
   * The property as the source computes it: the accumulated component
   * list is re-sorted and re-rendered after every accepted entry.
   */
  method LanguageVersions(sec: Section) returns (r: Result<seq<string>, ConfigError>)
    ensures r == LanguageVersionsOf(sec)
  {
    var versions := RequestedVersions(sec);
    r := Normalise(versions);
  }

  /** The checking, sorting and rendering loop over the lower-cased entries. */
  method Normalise(vs: seq<string>) returns (r: Result<seq<string>, ConfigError>)
    ensures r == NormaliseVersions(vs)
  {
    var versions := vs;
    if Universal in versions {
      return Ok([Universal]);
    }
    var requested := versions;
    var componentList: seq<seq<string>> := [];
    var i := 0;
    while i < |requested|
      invariant 0 <= i <= |requested|
      invariant componentList == ComponentsAll(requested[..i])
      invariant forall j :: 0 <= j < i ==> MatchesVersion(requested[j])
      invariant versions == if i == 0 then requested else RenderAll(SortFrom(componentList, 0))
    {
      var version := requested[i];
      if !MatchesVersion(version) {
        NormaliseRejects(requested, i);
        return Err(BadLanguageVersion(version));
      }
      ComponentsAllStep(requested, i);
      assert forall j :: 0 <= j < i + 1 ==> MatchesVersion(requested[j]) by {
        forall j | 0 <= j < i + 1 ensures MatchesVersion(requested[j]) {
          if j == i {
            assert requested[j] == version;
          }
        }
      }
      componentList := componentList + [Components(version)];
      var sortedByZ := SortBy(componentList, 2);
      var sortedByY := SortBy(sortedByZ, 1);
      var sortedByX := SortBy(sortedByY, 0);
      SortStages(componentList);
      versions := RenderAll(sortedByX);
      i := i + 1;
    }
    assert requested[..i] == requested;
    NormaliseAccepted(requested);
    if i == 0 {
      SortFromEmpty(0);
    }
    return Ok(versions);
  }

  /** With no `universal` and every entry well formed, the result is the sorted rendering. */
  lemma NormaliseAccepted(vs: seq<string>)
    requires Universal !in vs
    requires forall j :: 0 <= j < |vs| ==> MatchesVersion(vs[j])
    ensures NormaliseVersions(vs) == Ok(RenderAll(SortFrom(ComponentsAll(vs), 0)))
  {
    FirstBadNone(vs);
  }

  lemma {:induction false} SortFromEmpty(k: nat)
    requires k <= 3
    ensures SortFrom([], k) == []
    decreases 3 - k
  {
    if k < 3 {
      SortFromEmpty(k + 1);
    }
  }

  /** The three sorts of the source, one after the other, are `SortFrom(s, 0)`. */
  lemma SortStages(s: seq<seq<string>>)
    ensures SortBy(SortBy(SortBy(s, 2), 1), 0) == SortFrom(s, 0)
  {
    assert SortFrom(s, 2) == SortBy(s, 2);
    assert SortFrom(s, 1) == SortBy(SortFrom(s, 2), 1);
  }

  /**
   * Without `universal`, a successful result renders every entry once,
   * in (first, second, third) component order.
   */
  lemma NormalisedIsSortedPermutation(vs: seq<string>)
    requires Universal !in vs && NormaliseVersions(vs).Ok?
    ensures exists s :: && NormaliseVersions(vs).value == RenderAll(s)
                        && SortedFrom(s, 0)
                        && multiset(s) == multiset(ComponentsAll(vs))
  {
    SortFromSorted(ComponentsAll(vs), 0);
  }

  /** An entry outside `X(.Y(.Z))` fails the property, naming the first such entry. */
  lemma NormaliseRejects(vs: seq<string>, i: nat)
    requires Universal !in vs
    requires i < |vs| && !MatchesVersion(vs[i])
    requires forall j :: 0 <= j < i ==> MatchesVersion(vs[j])
    ensures NormaliseVersions(vs) == Err(BadLanguageVersion(vs[i]))
  {
    FirstBadAt(vs, i);
  }

  // ---------------------------------------------------------------------
  // Rendering a well-formed version gives it back

  /** A version written as dot-separated non-empty digit groups. */
  predicate DigitGroups(groups: seq<string>)
  {
    forall i :: 0 <= i < |groups| ==> groups[i] != [] && AllDigits(groups[i])
  }

  lemma {:induction false} SplitDigitRun(d: string, rest: string)
    requires AllDigits(d)
    ensures SplitNonDigits(d + rest)
            == [d + SplitNonDigits(rest)[0]] + SplitNonDigits(rest)[1..]
  {
    var p := SplitNonDigits(rest);
    if d == [] {
      assert d + rest == rest;
      assert d + p[0] == p[0];
      assert [p[0]] + p[1..] == p;
    } else {
      assert (d + rest)[0] == d[0];
      assert (d + rest)[1..] == d[1..] + rest;
      SplitDigitRun(d[1..], rest);
      assert [d[0]] + (d[1..] + SplitNonDigits(rest)[0]) == d + SplitNonDigits(rest)[0];
    }
  }

  lemma {:induction false} SplitGroups(groups: seq<string>)
    requires |groups| >= 1 && DigitGroups(groups)
    ensures SplitNonDigits(Join(groups, ".")) == groups
  {
    var g := groups[0];
    if |groups| == 1 {
      SplitDigitRun(g, "");
      assert g + "" == g;
    } else {
      var tail := Join(groups[1..], ".");
      assert Join(groups, ".") == g + ("." + tail);
      SplitDigitRun(g, "." + tail);
      SplitGroups(groups[1..]);
      assert tail[0] == groups[1][0];
      assert SkipNonDigits("." + tail) == tail by {
        assert ("." + tail)[1..] == tail;
      }
      assert SplitNonDigits("." + tail) == [""] + groups[1..];
      assert g + "" == g;
      assert [g] + groups[1..] == groups;
    }
  }

  /** A prefix with no occurrence starting inside it passes replacement unchanged. */
  lemma {:induction false} ReplaceAfter(a: string, b: string)
    requires forall i :: 0 <= i < |a| ==> a[i] != 'x'
    requires a == [] || a[|a| - 1] != '.'
    ensures ReplaceAll(a + b, ".x", "") == a + ReplaceAll(b, ".x", "")
  {
    if a != [] {
      var c, t := a[0], a[1..];
      FirstRest(a);
      assert a + b == [c] + (t + b);
      assert !(".x" <= [c] + (t + b)) by {
        if |a| >= 2 {
          assert (a + b)[1] == a[1];
        } else if b != [] {
          assert (a + b)[1] == b[0];
        }
      }
      ReplaceAllPastChar(c, t + b, ".x", "");
      ReplaceAfter(t, b);
      assert [c] + (t + ReplaceAll(b, ".x", "")) == a + ReplaceAll(b, ".x", "");
    } else {
      assert a + b == b;
    }
  }

  lemma {:induction false} PadTail(groups: seq<string>)
    requires |groups| >= 1
    ensures Join(Pad(groups), ".") == Join(groups, ".") + Repeat(".x", 3 - |groups|)
    decreases 3 - |groups|
  {
    if |groups| < 3 {
      PadTail(groups + ["x"]);
      JoinAppend(groups, "x", ".");
      assert Repeat(".x", 3 - |groups|) == ".x" + Repeat(".x", 3 - |groups| - 1) by {
        RepeatFront(".x", 3 - |groups|);
      }
    }
  }

  lemma {:induction false} RepeatFront(s: string, n: int)
    requires n >= 1
    ensures Repeat(s, n) == s + Repeat(s, n - 1)
    decreases n
  {
    if n > 1 {
      RepeatFront(s, n - 1);
    }
  }

  lemma {:induction false} ReplacePadding(n: int)
    ensures ReplaceAll(Repeat(".x", n), ".x", "") == ""
    decreases if n < 0 then 0 else n
  {
    if n >= 1 {
      RepeatFront(".x", n);
      ReplacePadding(n - 1);
      assert (".x" + Repeat(".x", n - 1))[2..] == Repeat(".x", n - 1);
    }
  }

  /**
   * `X`, `X.Y` and `X.Y.Z` with non-empty digit groups render back to
   * themselves.
   */
  lemma RenderComponentsRoundTrip(groups: seq<string>)
    requires 1 <= |groups| <= 3 && DigitGroups(groups)
    ensures Render(Components(Join(groups, "."))) == Join(groups, ".")
  {
    var v := Join(groups, ".");
    SplitGroups(groups);
    PadTail(groups);
    JoinGroupsShape(groups);
    ReplaceAfter(v, Repeat(".x", 3 - |groups|));
    ReplacePadding(3 - |groups|);
    assert v + "" == v;
  }

  /** Digit groups joined with dots: digits and dots only, a digit at both ends, one dot fewer than groups. */
  lemma {:induction false} JoinGroupsShape(groups: seq<string>)
    requires |groups| >= 1 && DigitGroups(groups)
    ensures var v := Join(groups, ".");
            && v != [] && IsDigit(v[0]) && IsDigit(v[|v| - 1])
            && (forall i :: 0 <= i < |v| ==> IsDigit(v[i]) || v[i] == '.')
            && Count(v, '.') == |groups| - 1
  {
    var g := groups[0];
    assert IsDigit(g[0]) && IsDigit(g[|g| - 1]);
    assert Count(g, '.') == 0 by { DigitsHaveNoDot(g); }
    if |groups| > 1 {
      JoinGroupsShape(groups[1..]);
      var v := Join(groups, ".");
      var tail := Join(groups[1..], ".");
      assert v == g + ("." + tail);
      assert v[|v| - 1] == tail[|tail| - 1];
      forall i | 0 <= i < |v| ensures IsDigit(v[i]) || v[i] == '.' {
        if i < |g| {
          assert v[i] == g[i];
        } else if i > |g| {
          assert v[i] == tail[i - |g| - 1];
        }
      }
      CountAppend(g, "." + tail, '.');
      CountAppend(".", tail, '.');
    }
  }

  lemma {:induction false} DigitsHaveNoDot(s: string)
    requires AllDigits(s)
    ensures Count(s, '.') == 0
  {
    if s != [] {
      DigitsHaveNoDot(s[1..]);
    }
  }

  /** Every `X`, `X.Y` and `X.Y.Z` of non-empty digit groups passes the pattern. */
  lemma GroupsMatch(groups: seq<string>)
    requires 1 <= |groups| <= 3 && DigitGroups(groups)
    ensures MatchesVersion(Join(groups, "."))
  {
    JoinGroupsShape(groups);
  }

  /** One entry needs no sorting. */
  lemma {:induction false} SortSingle(c: seq<string>, k: nat)
    requires k <= 3
    ensures SortFrom([c], k) == [c]
    decreases 3 - k
  {
    if k < 3 {
      SortSingle(c, k + 1);
      assert [c][..0] == [];
      assert SortBy([], k) == [];
      assert SortBy([c], k) == InsertBy([], c, k);
    }
  }

  /** A single well-formed version comes back as it was written. */
  lemma SingleVersion(groups: seq<string>)
    requires 1 <= |groups| <= 3 && DigitGroups(groups)
    ensures NormaliseVersions([Join(groups, ".")]) == Ok([Join(groups, ".")])
  {
    var v := Join(groups, ".");
    assert Universal !in [v] by {
      JoinGroupsShape(groups);
      assert IsDigit(v[0]);
    }
    assert FirstBad([v]) == None by {
      GroupsMatch(groups);
      FirstBadNone([v]);
    }
    var c := Components(v);
    assert SortFrom(ComponentsAll([v]), 0) == [c] by {
      assert [v][..0] == [];
      assert ComponentsAll([v]) == [c];
      SortSingle(c, 0);
    }
    assert RenderAll([c]) == [v] by {
      assert [c][1..] == [];
      RenderComponentsRoundTrip(groups);
    }
  }

  /** Lower-casing leaves text without capital letters alone. */
  lemma {:induction false} LowerNoCapitals(s: string)
    requires forall i :: 0 <= i < |s| ==> !('A' <= s[i] <= 'Z')
    ensures Lower(s) == s
  {
    if s != [] {
      LowerNoCapitals(s[1..]);
      assert s == [s[0]] + s[1..];
    }
  }

  /** Without the option the property is the default version. */
  lemma DefaultVersions(sec: Section)
    requires !sec.Has("languageVersions")
    ensures LanguageVersionsOf(sec) == Ok([DefaultLanguageVersion])
  {
    var v := DefaultLanguageVersion;
    assert RequestedVersions(sec) == [v] by {
      LowerNoCapitals(v);
    }
    var groups := ["2", "7", "9"];
    assert Join(groups, ".") == v;
    SingleVersion(groups);
  }

  /** A listed `universal`, in any letter case, stands for every version. */
  lemma UniversalWins(sec: Section, i: nat)
    requires sec.Has("languageVersions")
    requires var items := ListItems(sec.Get("languageVersions"));
             i < |items| && Lower(items[i]) == Universal
    ensures LanguageVersionsOf(sec) == Ok([Universal])
  {
    var items := ListItems(sec.Get("languageVersions"));
    assert RequestedVersions(sec)[i] == Universal;
  }
}
