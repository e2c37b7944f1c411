/**
 * `Template.get_static_resource`: a template resource read as lines, each
 * `${key}` of the replacement dictionary replaced, key by key in the
 * dictionary's order, by the value's text (a callable value is called at
 * that moment). The packaged resources are a map from resource name to its
 * lines.
 */
module Resources {
  import opened Wrappers
  import opened Text

  /** A replacement value: text, or a callable evaluated when the substitution happens. */
  datatype Value = Literal(text: string) | Deferred(name: string)

  /** The replacement dictionary, in insertion order. */
  type Replacements = seq<(string, Value)>

  /** The packaged resources, each already split into lines. */
  type Resources = map<string, seq<string>>

  /** What executing a component tree can raise. */
  datatype ExecError =
    | MissingResource(name: string)
      /** a write or close while `context.file` is None */
    | NoOpenFile

  /** `${key}` */
  function Placeholder(key: string): (p: string)
    ensures |p| == |key| + 3 && p[0] == '$'
  {
    "${" + key + "}"
  }

  /** `value()` for a callable (given by `lazy`), `str(value)` otherwise. */
  function ValueText(v: Value, lazy: string -> string): string
  {
    match v
    case Literal(t) => t
    case Deferred(n) => lazy(n)
  }

  /** One line with every key's placeholders replaced, the first key first. */
  function SubstituteLine(line: string, reps: Replacements, lazy: string -> string): string
    decreases |reps|
  {
    if reps == [] then line
    else SubstituteLine(ReplaceAll(line, Placeholder(reps[0].0), ValueText(reps[0].1, lazy)), reps[1..], lazy)
  }

  function SubstituteLines(lines: seq<string>, reps: Replacements, lazy: string -> string): (r: seq<string>)
    ensures |r| == |lines|
    ensures forall i :: 0 <= i < |lines| ==> r[i] == SubstituteLine(lines[i], reps, lazy)
  {
    seq(|lines|, i requires 0 <= i < |lines| => SubstituteLine(lines[i], reps, lazy))
  }

  /** The populated resource, or the error for a resource that is not packaged. */
  function StaticResource(resources: Resources, name: string, reps: Replacements, lazy: string -> string)
    : (r: Result<seq<string>, ExecError>)
    ensures r.Err? <==> name !in resources
    ensures r.Err? ==> r.error == MissingResource(name)
    ensures r.Ok? ==> |r.value| == |resources[name]|
  {
    if name in resources then Ok(SubstituteLines(resources[name], reps, lazy))
    else Err(MissingResource(name))
  }

  /** `get_static_resource`: line by line, replacement by replacement. */
  method GetStaticResource(resources: Resources, name: string, reps: Replacements, lazy: string -> string)
    returns (r: Result<seq<string>, ExecError>)
    ensures r == StaticResource(resources, name, reps, lazy)
  {
    if name !in resources {
      return Err(MissingResource(name));
    }
    var resource := resources[name];
    var retLines: seq<string> := [];
    var i := 0;
    while i < |resource|
      invariant 0 <= i <= |resource|
      invariant retLines == SubstituteLines(resource[..i], reps, lazy)
    {
      var line := resource[i];
      var j := 0;
      while j < |reps|
        invariant 0 <= j <= |reps|
        invariant SubstituteLine(line, reps[j..], lazy) == SubstituteLine(resource[i], reps, lazy)
      {
        assert reps[j..][1..] == reps[j + 1..];
        var (key, value) := reps[j];
        line := ReplaceAll(line, Placeholder(key), ValueText(value, lazy));
        j := j + 1;
      }
      assert reps[j..] == [];
      retLines := retLines + [line];
      i := i + 1;
    }
    assert resource[..i] == resource;
    return Ok(retLines);
  }

  /** A line holding no placeholder of any key comes out unchanged. */
  lemma {:induction false} SubstituteUntouched(line: string, reps: Replacements, lazy: string -> string)
    requires forall k :: 0 <= k < |reps| ==> !Occurs(line, Placeholder(reps[k].0))
    ensures SubstituteLine(line, reps, lazy) == line
    decreases |reps|
  {
    if reps != [] {
      ReplaceAllAbsent(line, Placeholder(reps[0].0), ValueText(reps[0].1, lazy));
      SubstituteUntouched(line, reps[1..], lazy);
    }
  }

  /**
   * One key: the line is cut at the non-overlapping occurrences of its
   * placeholder and the pieces are glued back with the value's text. The
   * pieces hold no placeholder, and gluing them with the placeholder gives
   * the line back.
   */
  lemma SubstituteOne(line: string, key: string, v: Value, lazy: string -> string)
    ensures var pieces := SplitOn(line, Placeholder(key));
            && SubstituteLine(line, [(key, v)], lazy) == Join(pieces, ValueText(v, lazy))
            && Join(pieces, Placeholder(key)) == line
            && (forall k :: 0 <= k < |pieces| ==> !Occurs(pieces[k], Placeholder(key)))
  {
    var p := Placeholder(key);
    var t := ReplaceAll(line, p, ValueText(v, lazy));
    assert SubstituteLine(line, [(key, v)], lazy) == SubstituteLine(t, [], lazy);
    ReplaceAllIsJoin(line, p, ValueText(v, lazy));
    SplitOnJoin(line, p);
    SplitOnPiecesFree(line, p);
  }

  /** A line that is just a placeholder becomes that key's text, then the later keys apply. */
  lemma PlaceholderLine(key: string, v: Value, rest: Replacements, lazy: string -> string)
    ensures SubstituteLine(Placeholder(key), [(key, v)] + rest, lazy)
            == SubstituteLine(ValueText(v, lazy), rest, lazy)
  {
    var p := Placeholder(key);
    var t := ValueText(v, lazy);
    assert ReplaceAll(p, p, t) == t by {
      assert p[|p|..] == [];
      assert t + [] == t;
    }
    assert ([(key, v)] + rest)[1..] == rest;
  }
}
