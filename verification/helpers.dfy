/**
 * The static string builders of `Template`: underlines, the
 * `install_requires` text of setup.py, the `.Z`-stripping of versions, the
 * wheel tag, `python_requires`, the classifiers, the Docker base-image
 * version and the supported-versions sentence of the installation guide.
 * The builders that loop in the source are methods, each proved equal to a
 * reference definition written with `Join`.
 */
module TemplateHelpers {
  import opened Text
  import opened LanguageVersions

  // ---------------------------------------------------------------------
  // Lists with a separator after every entry, and the `[:-1]` that drops
  // the last one

  /** Every entry followed by `sep`. */
  function Terminated(xs: seq<string>, sep: string): string
  {
    if xs == [] then "" else Terminated(xs[..|xs| - 1], sep) + xs[|xs| - 1] + sep
  }

  /** `s[:-1]` */
  function DropLast(s: string): (r: string)
    ensures s != [] ==> |r| == |s| - 1
    ensures r <= s
  {
    if s == [] then s else s[..|s| - 1]
  }

  lemma TerminatedSnoc(xs: seq<string>, x: string, sep: string)
    ensures Terminated(xs + [x], sep) == Terminated(xs, sep) + x + sep
  {
    assert (xs + [x])[..|xs|] == xs;
  }

  /** One more entry of `xs`, after a fixed prefix. */
  lemma TerminatedStep(prefix: string, xs: seq<string>, i: nat, sep: string)
    requires i < |xs|
    ensures prefix + Terminated(xs[..i + 1], sep) == prefix + Terminated(xs[..i], sep) + xs[i] + sep
  {
    assert xs[..i + 1] == xs[..i] + [xs[i]];
    TerminatedSnoc(xs[..i], xs[i], sep);
  }

  /** A non-empty list with a separator after every entry is the joined list and one separator more. */
  lemma {:induction false} TerminatedJoin(xs: seq<string>, sep: string)
    requires |xs| >= 1
    ensures Terminated(xs, sep) == Join(xs, sep) + sep
  {
    var init := xs[..|xs| - 1];
    var last := xs[|xs| - 1];
    assert init + [last] == xs;
    if |xs| == 1 {
      assert Terminated(init, sep) == "";
    } else {
      TerminatedJoin(init, sep);
      JoinAppend(init, last, sep);
    }
  }

  /** Dropping the trailing one-character separator leaves the joined list. */
  lemma DropTerminator(prefix: string, xs: seq<string>, sep: string)
    requires |xs| >= 1 && |sep| == 1
    ensures DropLast(prefix + Terminated(xs, sep)) == prefix + Join(xs, sep)
  {
    TerminatedJoin(xs, sep);
    assert prefix + Terminated(xs, sep) == (prefix + Join(xs, sep)) + sep;
  }

  // ---------------------------------------------------------------------
  // create_underline

  /** `length` copies of `c`, none when `length` is not positive. */
  function Underline(length: int, c: char): string
  {
    seq(if length < 0 then 0 else length, _ => c)
  }

  /** `create_underline(length, char)`: `length` copies of the character (none when not positive). */
  method CreateUnderline(length: int, c: char) returns (r: string)
    ensures |r| == if length < 0 then 0 else length
    ensures forall i :: 0 <= i < |r| ==> r[i] == c
  {
    r := "";
    var i := 0;
    while i < length
      invariant 0 <= i && (length >= 0 ==> i <= length) && (length < 0 ==> i == 0)
      invariant |r| == i
      invariant forall j :: 0 <= j < |r| ==> r[j] == c
    {
      r := r + [c];
      i := i + 1;
    }
  }

  // ---------------------------------------------------------------------
  // create_install_requires

  /** The setup.py line for one requirement: a line break, eight spaces, the quoted name. */
  function RequirementLine(req: string): string
  {
    "\n        \"" + req + "\""
  }

  function RequirementLines(reqs: seq<string>): (lines: seq<string>)
    ensures |lines| == |reqs|
    ensures forall i :: 0 <= i < |reqs| ==> lines[i] == RequirementLine(reqs[i])
  {
    seq(|reqs|, i requires 0 <= i < |reqs| => RequirementLine(reqs[i]))
  }

  /** The requirement lines, separated by commas. */
  function InstallRequiresText(reqs: seq<string>): string
  {
    Join(RequirementLines(reqs), ",")
  }

  /** `create_install_requires`: a comma before every requirement but the first. */
  method CreateInstallRequires(reqs: seq<string>) returns (r: string)
    ensures r == InstallRequiresText(reqs)
  {
    r := "";
    var first := true;
    var i := 0;
    while i < |reqs|
      invariant 0 <= i <= |reqs|
      invariant first <==> i == 0
      invariant r == InstallRequiresText(reqs[..i])
    {
      assert RequirementLines(reqs[..i + 1]) == RequirementLines(reqs[..i]) + [RequirementLine(reqs[i])];
      if !first {
        JoinAppend(RequirementLines(reqs[..i]), RequirementLine(reqs[i]), ",");
      }
      r := r + (if first then "" else ",") + RequirementLine(reqs[i]);
      first := false;
      i := i + 1;
    }
    assert reqs[..i] == reqs;
  }

  /** No requirement gives no text; otherwise one line per requirement. */
  lemma {:induction false} InstallRequiresLines(reqs: seq<string>)
    requires forall i :: 0 <= i < |reqs| ==> '\n' !in reqs[i]
    ensures Count(InstallRequiresText(reqs), '\n') == |reqs|
  {
    if |reqs| == 1 {
      RequirementLineCount(reqs[0]);
    } else if |reqs| > 1 {
      var init := reqs[..|reqs| - 1];
      var last := reqs[|reqs| - 1];
      InstallRequiresLines(init);
      RequirementLineCount(last);
      assert RequirementLines(reqs) == RequirementLines(init) + [RequirementLine(last)];
      JoinAppend(RequirementLines(init), RequirementLine(last), ",");
      CountAppend(InstallRequiresText(init) + ",", RequirementLine(last), '\n');
      CountAppend(InstallRequiresText(init), ",", '\n');
    }
  }

  lemma RequirementLineCount(req: string)
    requires '\n' !in req
    ensures Count(RequirementLine(req), '\n') == 1
  {
    var head := "\n        \"";
    assert Count(head, '\n') == 1;
    assert Count("\"", '\n') == 0;
    assert Count(req, '\n') == 0 by { NoCount(req, '\n'); }
    CountAppend(head + req, "\"", '\n');
    CountAppend(head, req, '\n');
  }

  lemma {:induction false} NoCount(s: string, c: char)
    requires c !in s
    ensures Count(s, c) == 0
  {
    if s != [] {
      NoCount(s[1..], c);
    }
  }

  // ---------------------------------------------------------------------
  // remove_z_version

  /** `s.rpartition(".")[0]`: the text before the last dot, "" when there is none. */
  function BeforeLastDot(s: string): (r: string)
    ensures |r| <= |s|
  {
    if s == [] then ""
    else if s[|s| - 1] == '.' then s[..|s| - 1]
    else BeforeLastDot(s[..|s| - 1])
  }

  /** `remove_z_version`: drops the last component of a version with exactly two dots. */
  function RemoveZVersion(v: string): string
  {
    if Count(v, '.') == 2 then BeforeLastDot(v) else v
  }

  /** Where there is a dot, the text splits at the last one into what comes before and a dot-free rest. */
  lemma {:induction false} BeforeLastDotSplit(s: string)
    requires '.' in s
    ensures var b := BeforeLastDot(s);
            && |b| < |s| && s == b + "." + s[|b| + 1..]
            && '.' !in s[|b| + 1..]
            && Count(b, '.') + 1 == Count(s, '.')
  {
    var init := s[..|s| - 1];
    var last := s[|s| - 1];
    assert s == init + [last];
    if last != '.' {
      assert '.' in init by {
        var k :| 0 <= k < |s| && s[k] == '.';
        assert k < |s| - 1;
        assert init[k] == '.';
      }
      BeforeLastDotSplit(init);
      BeforeLastDotPastChar(init, last);
    } else {
      BeforeLastDotAtDot(init);
    }
  }

  /** The step of `BeforeLastDotSplit` for a string ending in a dot. */
  lemma BeforeLastDotAtDot(init: string)
    ensures var s := init + ".";
            var b := BeforeLastDot(s);
            && |b| < |s| && s == b + "." + s[|b| + 1..]
            && '.' !in s[|b| + 1..]
            && Count(b, '.') + 1 == Count(s, '.')
  {
    var s := init + ".";
    assert s[..|s| - 1] == init;
    assert s[|init| + 1..] == [];
    CountAppend(init, ".", '.');
  }

  /** The step of `BeforeLastDotSplit` for a string ending in another character. */
  lemma BeforeLastDotPastChar(init: string, last: char)
    requires last != '.' && '.' in init
    requires var b := BeforeLastDot(init);
             && |b| < |init| && init == b + "." + init[|b| + 1..]
             && '.' !in init[|b| + 1..]
             && Count(b, '.') + 1 == Count(init, '.')
    ensures var s := init + [last];
            var b := BeforeLastDot(s);
            && |b| < |s| && s == b + "." + s[|b| + 1..]
            && '.' !in s[|b| + 1..]
            && Count(b, '.') + 1 == Count(s, '.')
  {
    var b := BeforeLastDot(init);
    BeforeLastDotSnoc(init, last);
    DotSplitSnoc(init, b, init[|b| + 1..], last);
    CountAppend(init, [last], '.');
  }

  lemma BeforeLastDotSnoc(init: string, last: char)
    requires last != '.'
    ensures BeforeLastDot(init + [last]) == BeforeLastDot(init)
  {
    assert (init + [last])[..|init|] == init;
  }

  /** Appending a character to a text split at a dot appends it to the part after the dot. */
  lemma DotSplitSnoc(s: string, b: string, r: string, last: char)
    requires |b| < |s| && s == b + "." + r
    ensures (s + [last])[|b| + 1..] == r + [last]
    ensures s + [last] == b + "." + (r + [last])
  {
  }

  /**
   * Only a version with exactly two dots changes: it loses its last dot and
   * what follows, keeping one dot. So stripping twice is stripping once.
   */
  lemma RemoveZVersionSpec(v: string)
    ensures Count(v, '.') != 2 ==> RemoveZVersion(v) == v
    ensures Count(v, '.') == 2 ==>
              var r := RemoveZVersion(v);
              && v == r + "." + v[|r| + 1..] && '.' !in v[|r| + 1..]
              && Count(r, '.') == 1
    ensures RemoveZVersion(RemoveZVersion(v)) == RemoveZVersion(v)
  {
    if Count(v, '.') == 2 {
      assert '.' in v by {
        if '.' !in v {
          NoCount(v, '.');
        }
      }
      BeforeLastDotSplit(v);
    }
  }

  // ---------------------------------------------------------------------
  // _has_only_python_2_support, create_language_requires,
  // create_docker_image_language_version

  /** A list whose last entry can be read: the source indexes `versions[-1][0]`. */
  predicate HasLastVersion(versions: seq<string>)
  {
    |versions| > 0 && versions[|versions| - 1] != []
  }

  /** `_has_only_python_2_support`: the highest (last) version starts with `2`. */
  predicate OnlyPython2(versions: seq<string>)
    requires HasLastVersion(versions)
  {
    versions[|versions| - 1][0] == '2'
  }

  const UniversalLanguageRequires := ">=2.7.9,!=3.0.*,!=3.1.*,!=3.2.*,!=3.3.*"

  /**
   * `create_language_requires`: for `universal` the fixed range; otherwise at
   * least the lowest (first) version, capped below 3 exactly when every
   * version is a Python 2 one.
   */
  function CreateLanguageRequires(versions: seq<string>): (r: string)
    requires Universal in versions || HasLastVersion(versions)
    ensures Universal in versions ==> r == UniversalLanguageRequires
    ensures Universal !in versions ==> ">=" + versions[0] <= r
    ensures Universal !in versions ==>
              r[|">=" + versions[0]|..] == if OnlyPython2(versions) then ",<3" else ""
    ensures Universal !in versions ==>
              (r == ">=" + versions[0] + ",<3" <==> versions[|versions| - 1][0] == '2')
    ensures Universal !in versions && versions[|versions| - 1][0] != '2' ==> r == ">=" + versions[0]
  {
    if Universal in versions then UniversalLanguageRequires
    else ">=" + versions[0] + (if OnlyPython2(versions) then ",<3" else "")
  }

  /**
   * `create_docker_image_language_version`: for `universal`, `2.7` (the
   * default version without its `.Z`); otherwise the lowest (first)
   * version, cut before its last dot when it has exactly two dots and
   * unchanged otherwise.
   */
  function CreateDockerImageLanguageVersion(versions: seq<string>): (r: string)
    requires Universal in versions || |versions| > 0
    ensures Universal in versions ==> r == "2.7"
    ensures Universal !in versions ==> r <= versions[0]
    ensures Universal !in versions && Count(versions[0], '.') != 2 ==> r == versions[0]
    ensures Universal !in versions && Count(versions[0], '.') == 2 ==>
              && Count(r, '.') == 1 && |r| < |versions[0]|
              && versions[0] == r + "." + versions[0][|r| + 1..]
              && '.' !in versions[0][|r| + 1..]
  {
    var v := if Universal in versions then DefaultLanguageVersion else versions[0];
    RemoveZVersionSpec(v);
    DefaultWithoutZ();
    RemoveZVersion(v)
  }

  /** The default version `2.7.9` without its `.Z` is `2.7`. */
  lemma DefaultWithoutZ()
    ensures RemoveZVersion(DefaultLanguageVersion) == "2.7"
  {
    var v := DefaultLanguageVersion;
    assert v == "2.7" + ".9";
    CountAppend("2.7", ".9", '.');
    BeforeLastDotSnoc("2.7.", '9');
    BeforeLastDotAtDot("2.7");
  }

  // ---------------------------------------------------------------------
  // create_dist_version_tag

  /** `"py" + remove_z_version(v).replace(".", "")` */
  function DistTag(v: string): string
  {
    "py" + ReplaceAll(RemoveZVersion(v), ".", "")
  }

  function DistTags(versions: seq<string>): (tags: seq<string>)
    ensures |tags| == |versions|
    ensures forall i :: 0 <= i < |versions| ==> tags[i] == DistTag(versions[i])
  {
    seq(|versions|, i requires 0 <= i < |versions| => DistTag(versions[i]))
  }

  function DistTagPrefix(args: bool): string
  {
    if args then "\"--python-tag\", \"" else ""
  }

  /**
   * The wheel tag: `--universal` (or `py2.py3`) for `universal`, otherwise
   * the per-version tags joined with dots, wrapped as a `--python-tag`
   * argument when `args` is set. With no versions the `[:-1]` bites into
   * the prefix.
   */
  function DistVersionTag(versions: seq<string>, args: bool): string
  {
    if Universal in versions then (if args then "\"--universal\"" else "py2.py3")
    else if versions == [] then DropLast(DistTagPrefix(args)) + (if args then "\"" else "")
    else DistTagPrefix(args) + Join(DistTags(versions), ".") + (if args then "\"" else "")
  }

  /** `create_dist_version_tag`, a dot after every tag and the last dot dropped. */
  method CreateDistVersionTag(versions: seq<string>, args: bool) returns (r: string)
    ensures r == DistVersionTag(versions, args)
  {
    r := if args then "\"--universal\"" else "py2.py3";
    if Universal !in versions {
      r := DistTagPrefix(args);
      var i := 0;
      while i < |versions|
        invariant 0 <= i <= |versions|
        invariant r == DistTagPrefix(args) + Terminated(DistTags(versions)[..i], ".")
      {
        TerminatedStep(DistTagPrefix(args), DistTags(versions), i, ".");
        r := r + DistTag(versions[i]) + ".";
        i := i + 1;
      }
      assert DistTags(versions)[..i] == DistTags(versions);
      if versions != [] {
        DropTerminator(DistTagPrefix(args), DistTags(versions), ".");
      }
      r := DropLast(r);
      if args {
        r := r + "\"";
      }
    }
  }

  /** `replace(".", "")` leaves no dot. */
  lemma {:induction false} DotsRemoved(s: string)
    ensures '.' !in ReplaceAll(s, ".", "")
    decreases |s|
  {
    if "." <= s {
      DotsRemoved(s[1..]);
    } else if s != [] {
      DotsRemoved(s[1..]);
    }
  }

  /** Each version contributes one tag, so the dots of the tag list only separate tags. */
  lemma DistTagsDotFree(versions: seq<string>)
    ensures forall i :: 0 <= i < |versions| ==> '.' !in DistTags(versions)[i]
  {
    forall i | 0 <= i < |versions| ensures '.' !in DistTags(versions)[i] {
      DotsRemoved(RemoveZVersion(versions[i]));
    }
  }

  /** The tag list reads back: splitting the joined tags on dots gives one tag per version. */
  lemma DistTagsRoundTrip(versions: seq<string>)
    requires |versions| >= 1
    ensures SplitOn(Join(DistTags(versions), "."), ".") == DistTags(versions)
  {
    DistTagsDotFree(versions);
    SplitJoinDotFree(DistTags(versions));
  }

  lemma {:induction false} SplitJoinDotFree(xs: seq<string>)
    requires |xs| >= 1
    requires forall i :: 0 <= i < |xs| ==> '.' !in xs[i]
    ensures SplitOn(Join(xs, "."), ".") == xs
  {
    if |xs| == 1 {
      SplitDotFree(xs[0], "");
      assert xs[0] + "" == xs[0];
    } else {
      var rest := Join(xs[1..], ".");
      assert Join(xs, ".") == xs[0] + ("." + rest);
      SplitDotFree(xs[0], "." + rest);
      SplitJoinDotFree(xs[1..]);
      assert ("." + rest)[1..] == rest;
      assert [xs[0]] + xs[1..] == xs;
    }
  }

  /** A dot-free head is glued onto the first piece of what follows it. */
  lemma {:induction false} SplitDotFree(a: string, rest: string)
    requires '.' !in a
    requires rest == [] || rest[0] == '.'
    ensures rest == [] ==> SplitOn(a + rest, ".") == [a]
    ensures rest != [] ==> SplitOn(a + rest, ".") == [a] + SplitOn(rest[1..], ".")
  {
    if a == [] {
      assert a + rest == rest;
    } else {
      assert (a + rest)[0] == a[0];
      assert (a + rest)[1..] == a[1..] + rest;
      SplitDotFree(a[1..], rest);
      assert [a[0]] + a[1..] == a;
    }
  }

  // ---------------------------------------------------------------------
  // create_classifiers

  const LineDelimiter := "\n        "
  const ProgramLanguageBase := "\"Programming Language : Python"

  /** The versions listed for `universal`. */
  const UniversalClassifierVersions := ["2", "2.7", "3", "3.4", "3.5", "3.6"]

  function ClassifierLine(v: string): string
  {
    LineDelimiter + ProgramLanguageBase + " :: " + RemoveZVersion(v) + "\""
  }

  function ClassifierLines(versions: seq<string>): (lines: seq<string>)
    ensures |lines| == |versions|
    ensures forall i :: 0 <= i < |versions| ==> lines[i] == ClassifierLine(versions[i])
  {
    seq(|versions|, i requires 0 <= i < |versions| => ClassifierLine(versions[i]))
  }

  function ClassifiedVersions(versions: seq<string>): seq<string>
  {
    if Universal in versions then UniversalClassifierVersions else versions
  }

  /**
   * The classifiers: the generic Python line, then one line per version
   * (the fixed list for `universal`), separated by commas.
   */
  function Classifiers(versions: seq<string>): string
  {
    Join([LineDelimiter + ProgramLanguageBase + "\""] + ClassifierLines(ClassifiedVersions(versions)), ",")
  }

  /** `create_classifiers`, a comma after every line and the last comma dropped. */
  method CreateClassifiers(versions: seq<string>) returns (r: string)
    ensures r == Classifiers(versions)
  {
    var head := LineDelimiter + ProgramLanguageBase + "\"";
    r := head + ",";
    var vs := versions;
    if Universal in vs {
      vs := UniversalClassifierVersions;
    }
    var lines := [head] + ClassifierLines(vs);
    assert r == Terminated(lines[..1], ",") by {
      assert lines[..1] == [head];
      assert [head][..0] == [];
    }
    var i := 0;
    while i < |vs|
      invariant 0 <= i <= |vs|
      invariant r == Terminated(lines[..i + 1], ",")
    {
      TerminatedStep("", lines, i + 1, ",");
      assert "" + Terminated(lines[..i + 1], ",") == r;
      r := r + ClassifierLine(vs[i]) + ",";
      i := i + 1;
    }
    assert lines[..i + 1] == lines;
    DropTerminator("", lines, ",");
    assert "" + r == r && "" + Join(lines, ",") == Join(lines, ",");
    r := DropLast(r);
  }

  // ---------------------------------------------------------------------
  // create_installation_doc_version_text

  const OsText := " installed within a Windows or Linux environment."
  const UniversalVersionText :=
    "2.7.9 or higher in the Python 2.x series or 3.4.0 or higher in the Python 3.x series"
  const Python3Unsupported := " (Python 3 is not supported at this time)"

  /** The entries of the English list: `or ` before the last one when there are several. */
  function ListedVersions(versions: seq<string>): (items: seq<string>)
    ensures |items| == |versions|
    ensures forall i :: 0 <= i < |versions| ==>
              items[i] == (if i == |versions| - 1 && |versions| > 1 then "or " else "") + versions[i]
  {
    seq(|versions|, i requires 0 <= i < |versions| =>
      (if i == |versions| - 1 && |versions| > 1 then "or " else "") + versions[i])
  }

  /** Two entries are separated by a space, three or more by a comma and a space. */
  function ListSeparator(n: nat): string
  {
    if n > 2 then ", " else " "
  }

  /** "A", "A or B", "A, B, or C". */
  function EnglishList(versions: seq<string>): string
  {
    Join(ListedVersions(versions), ListSeparator(|versions|))
  }

  /**
   * The installation guide's sentence: the versions as an English list, "or
   * higher" after a single version, the environment, and a note when no
   * Python 3 version is listed.
   */
  function InstallationDocVersionText(versions: seq<string>): string
    requires Universal in versions || HasLastVersion(versions)
  {
    if Universal in versions then UniversalVersionText + OsText
    else
      EnglishList(versions) + (if |versions| == 1 then " or higher" else "") + OsText
      + (if OnlyPython2(versions) then Python3Unsupported else "")
  }

  /** `create_installation_doc_version_text`, the list built entry by entry. */
  method CreateInstallationDocVersionText(versions: seq<string>) returns (r: string)
    requires Universal in versions || HasLastVersion(versions)
    ensures r == InstallationDocVersionText(versions)
  {
    if Universal in versions {
      return UniversalVersionText + OsText;
    }
    var n := |versions|;
    var items := ListedVersions(versions);
    var sep := ListSeparator(n);
    r := "";
    var i := 0;
    while i < n
      invariant 0 <= i <= n
      invariant i < n ==> r == Terminated(items[..i], sep)
      invariant i == n ==> r == Join(items, sep)
    {
      var before := r;
      if i == n - 1 && n > 1 {
        r := r + "or ";
      }
      r := r + versions[i];
      assert r == before + items[i];
      if i < n - 1 {
        if n > 2 {
          r := r + ",";
        }
        r := r + " ";
        assert r == before + items[i] + sep;
        assert items[..i + 1] == items[..i] + [items[i]];
        TerminatedSnoc(items[..i], items[i], sep);
      } else {
        assert items == items[..i] + [items[i]];
        TerminatedLast(items[..i], items[i], sep);
      }
      i := i + 1;
    }
    assert r == EnglishList(versions);
    if n == 1 {
      r := r + " or higher";
    } else {
      assert r == r + "";
    }
    r := r + OsText;
    if OnlyPython2(versions) {
      r := r + Python3Unsupported;
    } else {
      assert r == r + "";
    }
  }

  /** The list so far with its separators, then the last entry: the joined list. */
  lemma TerminatedLast(xs: seq<string>, x: string, sep: string)
    ensures Terminated(xs, sep) + x == Join(xs + [x], sep)
  {
    if xs == [] {
      assert [] + [x] == [x];
    } else {
      TerminatedJoin(xs, sep);
      JoinAppend(xs, x, sep);
    }
  }

  /** One version: "X or higher". Two: "X or Y". More: "X, Y, or Z". */
  lemma EnglishListShapes(versions: seq<string>)
    ensures |versions| == 1 ==> EnglishList(versions) == versions[0]
    ensures |versions| == 2 ==> EnglishList(versions) == versions[0] + " or " + versions[1]
    ensures |versions| >= 3 ==>
              var n := |versions|;
              EnglishList(versions)
              == Join(versions[..n - 1], ", ") + ", or " + versions[n - 1]
  {
    var n := |versions|;
    var items := ListedVersions(versions);
    if n == 2 {
      assert items[0] == "" + versions[0] == versions[0];
      assert items == [versions[0], "or " + versions[1]];
      assert items[1..] == ["or " + versions[1]];
      assert EnglishList(versions) == items[0] + " " + Join(items[1..], " ");
      assert Join(items[1..], " ") == "or " + versions[1];
      assert versions[0] + " " + ("or " + versions[1]) == versions[0] + " or " + versions[1];
    } else if n >= 3 {
      forall i | 0 <= i < n - 1 ensures items[i] == versions[i] {
        assert items[i] == "" + versions[i];
      }
      assert items == versions[..n - 1] + ["or " + versions[n - 1]];
      JoinAppend(versions[..n - 1], "or " + versions[n - 1], ", ");
    }
  }
}
