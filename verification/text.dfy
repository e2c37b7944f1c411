/**
 * String primitives shared by the model: joining, repetition, Python's
 * `str.strip` and `str.lower`, Python's ordering of strings, and the
 * non-overlapping left-to-right replacement that `re.sub` performs for a
 * literal pattern.
 */
module Text {

  /** `sep.join(parts)` */
  function Join(parts: seq<string>, sep: string): string
  {
    if |parts| == 0 then ""
    else if |parts| == 1 then parts[0]
    else parts[0] + sep + Join(parts[1..], sep)
  }

  lemma JoinAppend(parts: seq<string>, last: string, sep: string)
    requires |parts| > 0
    ensures Join(parts + [last], sep) == Join(parts, sep) + sep + last
  {
    if |parts| == 1 {
      assert parts + [last] == [parts[0], last];
      assert ([parts[0], last])[1..] == [last];
    } else {
      assert (parts + [last])[1..] == parts[1..] + [last];
      JoinAppend(parts[1..], last, sep);
    }
  }

  /** `s` repeated `n` times; nothing when `n` is not positive (as `range(0, n)`). */
  function Repeat(s: string, n: int): (r: string)
    ensures n >= 0 ==> |r| == n * |s|
    ensures n <= 0 ==> r == ""
    decreases if n < 0 then 0 else n
  {
    if n <= 0 then "" else Repeat(s, n - 1) + s
  }

  lemma {:induction false} RepeatAll(s: string, n: int, c: char)
    requires forall i :: 0 <= i < |s| ==> s[i] == c
    ensures forall i :: 0 <= i < |Repeat(s, n)| ==> Repeat(s, n)[i] == c
    decreases if n < 0 then 0 else n
  {
    if n > 0 {
      RepeatAll(s, n - 1, c);
    }
  }

  // ---------------------------------------------------------------------
  // Whitespace and str.strip()

  /** The characters Python 3's `str.isspace` accepts (so `str.strip()` removes). */
  predicate IsWhitespace(c: char)
  {
    c == ' ' || ('\t' <= c <= '\r') || ('\U{1c}' <= c <= '\U{1f}')
    || c == '\U{85}' || c == '\U{a0}' || c == '\U{1680}'
    || ('\U{2000}' <= c <= '\U{200a}') || c == '\U{2028}' || c == '\U{2029}'
    || c == '\U{202f}' || c == '\U{205f}' || c == '\U{3000}'
  }

  /** `s.lstrip()` */
  function TrimLeft(s: string): string
  {
    if s != [] && IsWhitespace(s[0]) then TrimLeft(s[1..]) else s
  }

  /** `s.rstrip()` */
  function TrimRight(s: string): string
  {
    if s != [] && IsWhitespace(s[|s| - 1]) then TrimRight(s[..|s| - 1]) else s
  }

  /** `lstrip` removes exactly the leading whitespace: a suffix remains, starting with non-space. */
  lemma {:induction false} TrimLeftSpec(s: string)
    ensures var r := TrimLeft(s);
            && |r| <= |s| && r == s[|s| - |r|..]
            && (forall i :: 0 <= i < |s| - |r| ==> IsWhitespace(s[i]))
            && (r == [] || !IsWhitespace(r[0]))
  {
    if s != [] && IsWhitespace(s[0]) {
      TrimLeftSpec(s[1..]);
      FirstRest(s);
      TrimLeftStep(s, s[0], s[1..]);
    }
  }

  /** The step of `TrimLeftSpec`: a leading space `c` is dropped and the rest `t` is trimmed. */
  lemma TrimLeftStep(s: string, c: char, t: string)
    requires s == [c] + t && IsWhitespace(c)
    requires var r := TrimLeft(t);
             && |r| <= |t| && r == t[|t| - |r|..]
             && (forall i :: 0 <= i < |t| - |r| ==> IsWhitespace(t[i]))
    ensures var r := TrimLeft(s);
            && r == TrimLeft(t)
            && |r| <= |s| && r == s[|s| - |r|..]
            && (forall i :: 0 <= i < |s| - |r| ==> IsWhitespace(s[i]))
  {
    assert s[1..] == t;
    var r := TrimLeft(t);
    assert s[|s| - |r|..] == t[|t| - |r|..];
    forall i | 0 <= i < |s| - |r|
      ensures IsWhitespace(s[i])
    {
      if i > 0 {
        assert s[i] == t[i - 1];
      }
    }
  }

  /** `rstrip` removes exactly the trailing whitespace: a prefix remains, ending with non-space. */
  lemma {:induction false} TrimRightSpec(s: string)
    ensures var r := TrimRight(s);
            && |r| <= |s| && r == s[..|r|]
            && (forall i :: |r| <= i < |s| ==> IsWhitespace(s[i]))
            && (r == [] || !IsWhitespace(r[|r| - 1]))
  {
    if s != [] && IsWhitespace(s[|s| - 1]) {
      TrimRightSpec(s[..|s| - 1]);
    }
  }

  /** `s.strip()` */
  function Strip(s: string): string
  {
    TrimRight(TrimLeft(s))
  }

  /** A string with no surrounding whitespace. */
  predicate IsTrimmed(s: string)
  {
    s == [] || (!IsWhitespace(s[0]) && !IsWhitespace(s[|s| - 1]))
  }

  /** `strip` leaves a trimmed string, and a trimmed string untouched. */
  lemma StripTrimmed(s: string)
    ensures IsTrimmed(Strip(s))
    ensures IsTrimmed(s) ==> Strip(s) == s
  {
    var l := TrimLeft(s);
    var r := TrimRight(l);
    TrimLeftSpec(s);
    TrimRightSpec(l);
    if r != [] {
      assert r[0] == l[0];
    }
    if IsTrimmed(s) && s != [] {
      assert TrimLeft(s) == s;
      assert TrimRight(s) == s;
    }
  }

  // ---------------------------------------------------------------------
  // str.lower()

  function LowerChar(c: char): char
  {
    if 'A' <= c <= 'Z' then (c as int + 32) as char else c
  }

  /** `s.lower()` on the ASCII letters. */
  function Lower(s: string): (r: string)
    ensures |r| == |s|
  {
    if s == [] then [] else [LowerChar(s[0])] + Lower(s[1..])
  }

  /** `lower()` maps each character on its own. */
  lemma {:induction false} LowerChars(s: string)
    ensures forall i :: 0 <= i < |s| ==> Lower(s)[i] == LowerChar(s[i])
  {
    if s != [] {
      LowerChars(s[1..]);
    }
  }

  // ---------------------------------------------------------------------
  // Python's ordering of strings: code point by code point, a proper
  // prefix first.

  predicate StrLe(a: string, b: string)
  {
    a == [] || (b != [] && (a[0] < b[0] || (a[0] == b[0] && StrLe(a[1..], b[1..]))))
  }

  predicate StrLt(a: string, b: string)
  {
    StrLe(a, b) && a != b
  }

  lemma {:induction false} StrLeTotal(a: string, b: string)
    ensures StrLe(a, b) || StrLe(b, a)
  {
    if a != [] && b != [] && a[0] == b[0] {
      StrLeTotal(a[1..], b[1..]);
    }
  }

  lemma {:induction false} StrLeAntisymmetric(a: string, b: string)
    requires StrLe(a, b) && StrLe(b, a)
    ensures a == b
  {
    if a != [] {
      StrLeAntisymmetric(a[1..], b[1..]);
      assert a == [a[0]] + a[1..] && b == [b[0]] + b[1..];
    }
  }

  lemma {:induction false} StrLeTransitive(a: string, b: string, c: string)
    requires StrLe(a, b) && StrLe(b, c)
    ensures StrLe(a, c)
  {
    if a != [] && b != [] && c != [] && a[0] == b[0] && b[0] == c[0] {
      StrLeTransitive(a[1..], b[1..], c[1..]);
    }
  }

  // ---------------------------------------------------------------------
  // Occurrences, replacement and splitting on a literal pattern

  /** Some occurrence of `p` lies wholly inside `s`. */
  predicate Occurs(s: string, p: string)
  {
    p <= s || (s != [] && Occurs(s[1..], p))
  }

  /**
   * Every non-overlapping occurrence of `p`, scanning left to right,
   * replaced by `r` (what `re.sub` does for a pattern that matches one
   * literal string).
   */
  function ReplaceAll(s: string, p: string, r: string): string
    requires |p| > 0
    decreases |s|
  {
    if p <= s then r + ReplaceAll(s[|p|..], p, r)
    else if s == [] then []
    else [s[0]] + ReplaceAll(s[1..], p, r)
  }

  /** The pieces of `s` between the non-overlapping occurrences of `p`. */
  function SplitOn(s: string, p: string): (pieces: seq<string>)
    requires |p| > 0
    ensures |pieces| >= 1
    ensures pieces[0] <= s
    decreases |s|
  {
    if p <= s then [""] + SplitOn(s[|p|..], p)
    else if s == [] then [""]
    else
      var rest := SplitOn(s[1..], p);
      [[s[0]] + rest[0]] + rest[1..]
  }

  /** Splitting on `p` and joining with `p` gives back the string. */
  lemma {:induction false} SplitOnJoin(s: string, p: string)
    requires |p| > 0
    ensures Join(SplitOn(s, p), p) == s
    decreases |s|
  {
    if p <= s {
      SplitOnJoin(s[|p|..], p);
      SplitOnJoinAtMatch(s, p);
    } else if s != [] {
      SplitOnJoin(s[1..], p);
      FirstRest(s);
      SplitOnJoinPastChar(s[0], s[1..], p);
    }
  }

  /** A string that starts with `p` is `p` followed by the rest. */
  lemma PrefixRest(s: string, p: string)
    requires p <= s
    ensures s == p + s[|p|..]
  {
    assert p == s[..|p|];
    assert s == s[..|p|] + s[|p|..];
  }

  /** A non-empty string is its first character followed by the rest. */
  lemma FirstRest(s: string)
    requires s != []
    ensures s == [s[0]] + s[1..]
  {
  }

  /** The step of `SplitOnJoin` where `s` starts with `p`. */
  lemma SplitOnJoinAtMatch(s: string, p: string)
    requires |p| > 0 && p <= s
    requires Join(SplitOn(s[|p|..], p), p) == s[|p|..]
    ensures Join(SplitOn(s, p), p) == s
  {
    var t := s[|p|..];
    var rest := SplitOn(t, p);
    assert SplitOn(s, p) == [""] + rest;
    JoinCons("", rest, p);
    assert Join(SplitOn(s, p), p) == "" + p + t;
    assert "" + p == p;
    PrefixRest(s, p);
  }

  /** The step of `SplitOnJoin` where the string, `c` then `t`, does not start with `p`. */
  lemma SplitOnJoinPastChar(c: char, t: string, p: string)
    requires |p| > 0 && !(p <= [c] + t)
    requires Join(SplitOn(t, p), p) == t
    ensures Join(SplitOn([c] + t, p), p) == [c] + t
  {
    var rest := SplitOn(t, p);
    assert ([c] + t)[1..] == t;
    assert SplitOn([c] + t, p) == [[c] + rest[0]] + rest[1..];
    JoinHead([c], rest, p);
  }

  /** A string that does not start with `p` keeps its first character. */
  lemma ReplaceAllPastChar(c: char, t: string, p: string, r: string)
    requires |p| > 0 && !(p <= [c] + t)
    ensures ReplaceAll([c] + t, p, r) == [c] + ReplaceAll(t, p, r)
  {
    assert ([c] + t)[1..] == t;
  }

  /** Replacing every occurrence is joining the pieces with the replacement. */
  lemma {:induction false} ReplaceAllIsJoin(s: string, p: string, r: string)
    requires |p| > 0
    ensures ReplaceAll(s, p, r) == Join(SplitOn(s, p), r)
    decreases |s|
  {
    if p <= s {
      ReplaceAllIsJoin(s[|p|..], p, r);
      ReplaceAllIsJoinAtMatch(s, p, r);
    } else if s != [] {
      ReplaceAllIsJoin(s[1..], p, r);
      FirstRest(s);
      ReplaceAllIsJoinPastChar(s[0], s[1..], p, r);
    }
  }

  /** The step of `ReplaceAllIsJoin` where `s` starts with `p`. */
  lemma ReplaceAllIsJoinAtMatch(s: string, p: string, r: string)
    requires |p| > 0 && p <= s
    requires ReplaceAll(s[|p|..], p, r) == Join(SplitOn(s[|p|..], p), r)
    ensures ReplaceAll(s, p, r) == Join(SplitOn(s, p), r)
  {
    var rest := SplitOn(s[|p|..], p);
    assert SplitOn(s, p) == [""] + rest;
    JoinCons("", rest, r);
    assert "" + r == r;
  }

  /** The step of `ReplaceAllIsJoin` where the string, `c` then `t`, does not start with `p`. */
  lemma ReplaceAllIsJoinPastChar(c: char, t: string, p: string, r: string)
    requires |p| > 0 && !(p <= [c] + t)
    requires ReplaceAll(t, p, r) == Join(SplitOn(t, p), r)
    ensures ReplaceAll([c] + t, p, r) == Join(SplitOn([c] + t, p), r)
  {
    var rest := SplitOn(t, p);
    assert ([c] + t)[1..] == t;
    assert SplitOn([c] + t, p) == [[c] + rest[0]] + rest[1..];
    JoinHead([c], rest, r);
  }

  lemma JoinCons(x: string, rest: seq<string>, sep: string)
    requires |rest| >= 1
    ensures Join([x] + rest, sep) == x + sep + Join(rest, sep)
  {
    assert ([x] + rest)[1..] == rest;
  }

  /** Gluing a prefix onto the first piece glues it onto the joined string. */
  lemma JoinHead(x: string, rest: seq<string>, sep: string)
    requires |rest| >= 1
    ensures Join([x + rest[0]] + rest[1..], sep) == x + Join(rest, sep)
  {
    if |rest| > 1 {
      JoinCons(x + rest[0], rest[1..], sep);
      JoinCons(rest[0], rest[1..], sep);
      assert [rest[0]] + rest[1..] == rest;
    } else {
      assert [x + rest[0]] + rest[1..] == [x + rest[0]];
    }
  }

  lemma {:induction false} OccursInPrefix(a: string, s: string, p: string)
    requires a <= s && Occurs(a, p)
    ensures Occurs(s, p)
    decreases |a|
  {
    if !(p <= a) {
      OccursInPrefix(a[1..], s[1..], p);
    }
  }

  /** No piece left between the replaced occurrences still holds `p`. */
  lemma {:induction false} SplitOnPiecesFree(s: string, p: string)
    requires |p| > 0
    ensures forall k :: 0 <= k < |SplitOn(s, p)| ==> !Occurs(SplitOn(s, p)[k], p)
    decreases |s|
  {
    if p <= s {
      SplitOnPiecesFree(s[|p|..], p);
      var rest := SplitOn(s[|p|..], p);
      assert !Occurs("", p);
      forall k | 0 < k < |[""] + rest| ensures ([""] + rest)[k] == rest[k - 1] { }
    } else if s != [] {
      SplitOnPiecesFree(s[1..], p);
      var rest := SplitOn(s[1..], p);
      var head := [s[0]] + rest[0];
      assert head[1..] == rest[0];
      assert head <= s;
      forall k | 0 < k < |rest| ensures ([head] + rest[1..])[k] == rest[k] { }
    }
  }

  /** Replacement changes nothing where the pattern does not occur. */
  lemma {:induction false} ReplaceAllAbsent(s: string, p: string, r: string)
    requires |p| > 0 && !Occurs(s, p)
    ensures ReplaceAll(s, p, r) == s
    decreases |s|
  {
    if s != [] {
      ReplaceAllAbsent(s[1..], p, r);
      assert s == [s[0]] + s[1..];
    }
  }

  /** `s.count(c)` */
  function Count(s: string, c: char): nat
  {
    if s == [] then 0 else (if s[0] == c then 1 else 0) + Count(s[1..], c)
  }

  lemma CountAppend(a: string, b: string, c: char)
    ensures Count(a + b, c) == Count(a, c) + Count(b, c)
  {
    if a == [] {
      assert a + b == b;
    } else {
      assert (a + b)[0] == a[0];
      assert (a + b)[1..] == a[1..] + b;
      CountAppend(a[1..], b, c);
    }
  }
}
