/**
 * The component tree a template builds and its execution against a
 * TemplateContext. A component runs its pre-execute hook, its own
 * on-execute step, its children in the order they were added, and its
 * post-execute hook:
 *  - a directory component enters `join(current, name)`, creates it (unless
 *    it exists) and restores the previous directory afterwards;
 *  - a code component raises the indent level by its own level, appends its
 *    populated resource to the open file, and lowers the level again;
 *  - a file component opens `join(current, name)` for writing (truncating
 *    it), writes its resource like a code component, and closes the file.
 * In a validate-only run no directory is made, no file is opened, written
 * or closed, and no resource is read.
 *
 * The file system is a value: the set of directories and a map from file
 * path to content. Paths are sequences of names.
 */
module Components {
  import opened Wrappers
  import opened Text
  import opened Resources

  type Path = seq<string>

  /** `os.path.join(p, name)`: an empty name denotes `p` itself. */
  function PathJoin(p: Path, name: string): (r: Path)
    ensures name == "" ==> r == p
    ensures name != "" ==> |r| == |p| + 1 && r[..|p|] == p && r[|p|] == name
  {
    if name == "" then p else p + [name]
  }

  datatype Component =
    | Generic(children: seq<Component>)
    | Dir(name: string, children: seq<Component>)
    | Code(template: string, replacements: Replacements, indent: int, children: seq<Component>)
    | File(fileName: string, template: string, replacements: Replacements, children: seq<Component>)

  /**
   * `add_child`: the component with one more child, run after the others;
   * its kind, name, resource and existing children stay as they were.
   */
  function AddChild(c: Component, child: Component): (r: Component)
    ensures r.children == c.children + [child]
    ensures r.(children := c.children) == c
    ensures EntryName(r) == EntryName(c)
  {
    c.(children := c.children + [child])
  }

  /** The name a directory or file component creates; "" for the others. */
  function EntryName(c: Component): string
  {
    match c
    case Dir(n, _) => n
    case File(n, _, _, _) => n
    case _ => ""
  }

  function Names(cs: seq<Component>): (r: seq<string>)
    ensures |r| == |cs|
    ensures forall i :: 0 <= i < |cs| ==> r[i] == EntryName(cs[i])
  {
    seq(|cs|, i requires 0 <= i < |cs| => EntryName(cs[i]))
  }

  /** The value a replacement dictionary gives a key (the first entry for it). */
  function Lookup(reps: Replacements, key: string): Option<Value>
  {
    if reps == [] then None
    else if reps[0].0 == key then Some(reps[0].1)
    else Lookup(reps[1..], key)
  }

  datatype FileSystem = FileSystem(dirs: set<Path>, files: map<Path, string>)

  /** `os.path.exists`; the empty path is the working directory. */
  predicate Exists(fs: FileSystem, p: Path)
  {
    p == [] || p in fs.dirs || p in fs.files
  }

  /** The directory and every directory above it. */
  function Ancestors(p: Path): (r: set<Path>)
    ensures p != [] ==> p in r
    ensures forall q :: q in r ==> q != [] && q <= p
  {
    assert p[..|p|] == p;
    set i | 0 < i <= |p| :: p[..i]
  }

  /**
   * `os.makedirs(p)`: `p` and every directory above it exist afterwards;
   * the only directories added are those; no file changes.
   */
  function MakeDirs(fs: FileSystem, p: Path): (r: FileSystem)
    ensures r.files == fs.files && fs.dirs <= r.dirs
    ensures Exists(r, p)
    ensures forall i :: 0 < i <= |p| ==> p[..i] in r.dirs
    ensures forall q :: q in r.dirs && q !in fs.dirs ==> q != [] && q <= p
  {
    fs.(dirs := fs.dirs + Ancestors(p))
  }

  /** `open(p, "w")`: the file exists and is empty; no other file or directory changes. */
  function Truncate(fs: FileSystem, p: Path): (r: FileSystem)
    ensures r.dirs == fs.dirs && p in r.files && r.files[p] == ""
    ensures r.files.Keys == fs.files.Keys + {p}
    ensures forall q :: q in fs.files && q != p ==> r.files[q] == fs.files[q]
  {
    fs.(files := fs.files[p := ""])
  }

  function Append(fs: FileSystem, p: Path, text: string): (r: FileSystem)
    ensures r.dirs == fs.dirs && p in r.files
    ensures r.files[p] == (if p in fs.files then fs.files[p] else "") + text
    ensures forall q :: q in fs.files && q != p ==> q in r.files && r.files[q] == fs.files[q]
  {
    fs.(files := fs.files[p := (if p in fs.files then fs.files[p] else "") + text])
  }

  /** The indentation `write_to_file` puts before a line: four spaces per level. */
  function Indent(level: int): (r: string)
    ensures |r| == 4 * (if level > 0 then level else 0)
    ensures forall i :: 0 <= i < |r| ==> r[i] == ' '
  {
    RepeatAll("    ", level, ' ');
    Repeat("    ", level)
  }

  /** The text written for `lines` at an indentation: each line indented and ended by a newline. */
  function Indented(indent: string, lines: seq<string>): string
  {
    if lines == [] then "" else Indented(indent, lines[..|lines| - 1]) + (indent + lines[|lines| - 1] + "\n")
  }

  /** The context's state: the current directory, the open file, the indent level, the file system. */
  datatype State = State(dir: Path, file: Option<Path>, indent: int, fs: FileSystem)

  /** What the resources and the deferred values of a template are. */
  datatype Env = Env(resources: Resources, lazy: string -> string)

  /** `write_to_file`: nothing to write is no error, even with no open file. */
  function WriteLines(st: State, lines: seq<string>): Result<State, ExecError>
  {
    if lines == [] then Ok(st)
    else if st.file.None? then Err(NoOpenFile)
    else Ok(st.(fs := Append(st.fs, st.file.value, Indented(Indent(st.indent), lines))))
  }

  /** `on_pre_execute` */
  function PreHook(c: Component, st: State, validateOnly: bool): State
  {
    match c
    case Generic(_) => st
    case Dir(n, _) => st.(dir := PathJoin(st.dir, n))
    case Code(_, _, k, _) => st.(indent := st.indent + k)
    case File(n, _, _, _) =>
      if validateOnly then st
      else st.(file := Some(PathJoin(st.dir, n)), fs := Truncate(st.fs, PathJoin(st.dir, n)))
  }

  /** The on-execute step of a code or file component: its populated resource, written. */
  function Emit(st: State, template: string, reps: Replacements, env: Env): Result<State, ExecError>
  {
    var lines :- StaticResource(env.resources, template, reps, env.lazy);
    WriteLines(st, lines)
  }

  /** `on_execute` */
  function ExecuteHook(c: Component, st: State, validateOnly: bool, env: Env): Result<State, ExecError>
  {
    if validateOnly then Ok(st)
    else match c
      case Generic(_) => Ok(st)
      case Dir(_, _) => Ok(if Exists(st.fs, st.dir) then st else st.(fs := MakeDirs(st.fs, st.dir)))
      case Code(t, reps, _, _) => Emit(st, t, reps, env)
      case File(_, t, reps, _) => Emit(st, t, reps, env)
  }

  /** `on_post_execute`; `prevDir` is the directory the component's pre-execute hook saw. */
  function PostHook(c: Component, prevDir: Path, st: State, validateOnly: bool): Result<State, ExecError>
  {
    match c
    case Generic(_) => Ok(st)
    case Dir(_, _) => Ok(st.(dir := prevDir))
    case Code(_, _, k, _) => Ok(st.(indent := st.indent - k))
    case File(_, _, _, _) =>
      if validateOnly then Ok(st)
      else if st.file.None? then Err(NoOpenFile)
      else Ok(st.(file := None))
  }

  /** `execute`: the state after the component and its subtree, or the error raised. */
  function Run(c: Component, st: State, validateOnly: bool, env: Env): Result<State, ExecError>
    decreases c
  {
    var s1 :- ExecuteHook(c, PreHook(c, st, validateOnly), validateOnly, env);
    var s2 :- RunChildren(c.children, s1, validateOnly, env);
    PostHook(c, st.dir, s2, validateOnly)
  }

  function RunChildren(cs: seq<Component>, st: State, validateOnly: bool, env: Env): Result<State, ExecError>
    decreases cs
  {
    if cs == [] then Ok(st)
    else
      var s :- Run(cs[0], st, validateOnly, env);
      RunChildren(cs[1..], s, validateOnly, env)
  }

  /** A method's error result and the state it leaves, as one value. */
  function Outcome(err: Option<ExecError>, st: State): Result<State, ExecError>
  {
    if err.Some? then Err(err.value) else Ok(st)
  }

  /**
   * The context a template runs in: the directory being populated, the file
   * being written, the indent level, and the file system it writes to.
   */
  class TemplateContext {
    var currentDirectory: Path
    var file: Option<Path>
    var indentLevel: int
    var fs: FileSystem
    /** The template's packaged resources. */
    const resources: Resources

    function Snapshot(): State
      reads this
    {
      State(currentDirectory, file, indentLevel, fs)
    }

    /** A fresh context: no directory yet, no open file, indent level zero. */
    constructor(resources: Resources, fs: FileSystem)
      ensures Snapshot() == State([], None, 0, fs) && this.resources == resources
    {
      currentDirectory := [];
      file := None;
      indentLevel := 0;
      this.fs := fs;
      this.resources := resources;
    }

    /** `write_to_file`: each line, indented by four spaces per level, then a newline. */
    method WriteToFile(lines: seq<string>) returns (err: Option<ExecError>)
      modifies this
      ensures Outcome(err, Snapshot()) == WriteLines(old(Snapshot()), lines)
    {
      if lines == [] {
        return None;
      }
      if file.None? {
        return Some(NoOpenFile);
      }
      var p := file.value;
      ghost var fs0 := fs;
      var i := 0;
      while i < |lines|
        invariant 0 <= i <= |lines|
        invariant Snapshot() == old(Snapshot()).(fs := fs)
        invariant i == 0 ==> fs == fs0
        invariant i > 0 ==> fs == Append(fs0, p, Indented(Indent(indentLevel), lines[..i]))
      {
        var indent := "";
        var j := 0;
        while j < indentLevel
          invariant indent == Repeat("    ", j)
          invariant indentLevel > 0 ==> 0 <= j <= indentLevel
          invariant indentLevel <= 0 ==> j == 0
        {
          indent := indent + "    ";
          j := j + 1;
        }
        IndentedStep(Indent(indentLevel), lines, i);
        AppendTwice(fs0, p, Indented(Indent(indentLevel), lines[..i]), indent + lines[i] + "\n");
        fs := Append(fs, p, indent + lines[i] + "\n");
        i := i + 1;
      }
      assert lines[..i] == lines;
      return None;
    }

    method OnPreExecute(c: Component, validateOnly: bool)
      modifies this
      ensures Snapshot() == PreHook(c, old(Snapshot()), validateOnly)
    {
      match c
      case Generic(_) =>
      case Dir(n, _) =>
        currentDirectory := PathJoin(currentDirectory, n);
      case Code(_, _, k, _) =>
        indentLevel := indentLevel + k;
      case File(n, _, _, _) =>
        if !validateOnly {
          var p := PathJoin(currentDirectory, n);
          fs := Truncate(fs, p);
          file := Some(p);
        }
    }

    method OnExecute(c: Component, validateOnly: bool, lazy: string -> string) returns (err: Option<ExecError>)
      modifies this
      ensures Outcome(err, Snapshot()) == ExecuteHook(c, old(Snapshot()), validateOnly, Env(resources, lazy))
    {
      err := None;
      if validateOnly {
        return;
      }
      match c
      case Generic(_) =>
      case Dir(_, _) =>
        if !Exists(fs, currentDirectory) {
          fs := MakeDirs(fs, currentDirectory);
        }
      case Code(t, reps, _, _) =>
        err := Write(t, reps, lazy);
      case File(_, t, reps, _) =>
        err := Write(t, reps, lazy);
    }

    /** `write_to_file(get_static_resource(template, replacements))` */
    method Write(template: string, reps: Replacements, lazy: string -> string) returns (err: Option<ExecError>)
      modifies this
      ensures Outcome(err, Snapshot()) == Emit(old(Snapshot()), template, reps, Env(resources, lazy))
    {
      var lines := GetStaticResource(resources, template, reps, lazy);
      if lines.Err? {
        return Some(lines.error);
      }
      err := WriteToFile(lines.value);
    }

    method OnPostExecute(c: Component, prevDirectory: Path, validateOnly: bool) returns (err: Option<ExecError>)
      modifies this
      ensures Outcome(err, Snapshot()) == PostHook(c, prevDirectory, old(Snapshot()), validateOnly)
    {
      err := None;
      match c
      case Generic(_) =>
      case Dir(_, _) =>
        currentDirectory := prevDirectory;
      case Code(_, _, k, _) =>
        indentLevel := indentLevel - k;
      case File(_, _, _, _) =>
        if !validateOnly {
          if file.None? {
            return Some(NoOpenFile);
          }
          file := None;
        }
    }

    /**
     * `execute`: the pre-execute hook, the component's own step, the
     * children in order, the post-execute hook. A directory component's
     * saved previous directory is the local `prevDirectory`; `lazy` gives
     * the text of the tree's deferred replacement values.
     */
    method Execute(c: Component, validateOnly: bool, lazy: string -> string) returns (err: Option<ExecError>)
      modifies this
      ensures Outcome(err, Snapshot()) == Run(c, old(Snapshot()), validateOnly, Env(resources, lazy))
      decreases c, 1
    {
      var prevDirectory := currentDirectory;
      OnPreExecute(c, validateOnly);
      err := OnExecute(c, validateOnly, lazy);
      if err.Some? {
        return;
      }
      err := ExecuteChildren(c.children, validateOnly, lazy);
      if err.Some? {
        return;
      }
      err := OnPostExecute(c, prevDirectory, validateOnly);
    }

    /** The children of a component, each executed in the order they were added. */
    method ExecuteChildren(cs: seq<Component>, validateOnly: bool, lazy: string -> string) returns (err: Option<ExecError>)
      modifies this
      ensures Outcome(err, Snapshot()) == RunChildren(cs, old(Snapshot()), validateOnly, Env(resources, lazy))
      decreases cs, 0
    {
      var env := Env(resources, lazy);
      ghost var s0 := Snapshot();
      var i := 0;
      while i < |cs|
        invariant 0 <= i <= |cs|
        invariant RunChildren(cs[..i], s0, validateOnly, env) == Ok(Snapshot())
      {
        ghost var before := Snapshot();
        err := Execute(cs[i], validateOnly, lazy);
        RunChildrenAppend(cs[..i], [cs[i]], s0, validateOnly, env);
        RunOne(cs[i], before, validateOnly, env);
        assert cs[..i] + [cs[i]] == cs[..i + 1];
        if err.Some? {
          RunChildrenAppend(cs[..i + 1], cs[i + 1..], s0, validateOnly, env);
          assert cs[..i + 1] + cs[i + 1..] == cs;
          return;
        }
        i := i + 1;
      }
      assert cs[..i] == cs;
      return None;
    }
  }

  // ---------------------------------------------------------------------
  // Properties of execution

  lemma IndentedStep(indent: string, lines: seq<string>, i: nat)
    requires i < |lines|
    ensures Indented(indent, lines[..i + 1]) == Indented(indent, lines[..i]) + (indent + lines[i] + "\n")
  {
    assert lines[..i + 1][..i] == lines[..i];
  }

  lemma AppendTwice(fs: FileSystem, p: Path, a: string, b: string)
    ensures Append(Append(fs, p, a), p, b) == Append(fs, p, a + b)
    ensures a == "" ==> Append(fs, p, a + b) == Append(fs, p, b)
  {
    var old0 := if p in fs.files then fs.files[p] else "";
    assert old0 + a + b == old0 + (a + b);
    assert fs.files[p := old0 + a][p := old0 + a + b] == fs.files[p := old0 + (a + b)];
    if a == "" {
      assert a + b == b;
    }
  }

  /** `cs` run on the state an earlier run left, or that run's error. */
  function ThenChildren(r: Result<State, ExecError>, cs: seq<Component>, validateOnly: bool, env: Env): Result<State, ExecError>
  {
    if r.Ok? then RunChildren(cs, r.value, validateOnly, env) else r
  }

  /** `c` run on the state an earlier run left, or that run's error. */
  function ThenRun(r: Result<State, ExecError>, c: Component, validateOnly: bool, env: Env): Result<State, ExecError>
  {
    if r.Ok? then Run(c, r.value, validateOnly, env) else r
  }

  /** Running `a + b` runs `a`, then `b` on the state `a` leaves; an error in `a` stops the run. */
  lemma {:induction false} RunChildrenAppend(a: seq<Component>, b: seq<Component>, st: State, validateOnly: bool, env: Env)
    ensures RunChildren(a + b, st, validateOnly, env) ==
            ThenChildren(RunChildren(a, st, validateOnly, env), b, validateOnly, env)
    decreases a
  {
    if a == [] {
      assert a + b == b;
    } else {
      assert (a + b)[0] == a[0] && (a + b)[1..] == a[1..] + b;
      match Run(a[0], st, validateOnly, env)
      case Ok(s) =>
        RunChildrenAppend(a[1..], b, s, validateOnly, env);
      case Err(_) =>
    }
  }

  /** `add_child` puts the new child last: it runs after every earlier child, on the state they leave. */
  lemma AddChildRunsLast(c: Component, child: Component, st: State, validateOnly: bool, env: Env)
    ensures RunChildren(AddChild(c, child).children, st, validateOnly, env) ==
            ThenRun(RunChildren(c.children, st, validateOnly, env), child, validateOnly, env)
  {
    RunChildrenAppend(c.children, [child], st, validateOnly, env);
    match RunChildren(c.children, st, validateOnly, env)
    case Ok(s) => RunOne(child, s, validateOnly, env);
    case Err(_) =>
  }

  lemma RunOne(child: Component, st: State, validateOnly: bool, env: Env)
    ensures RunChildren([child], st, validateOnly, env) == Run(child, st, validateOnly, env)
  {
    assert [child][1..] == [];
  }

  /** A validate-only run changes nothing: no directory, file, indent or file-system change. */
  lemma {:induction false} ValidateOnlyUnchanged(c: Component, st: State, env: Env)
    ensures Run(c, st, true, env) == Ok(st)
    decreases c
  {
    ValidateChildrenUnchanged(c.children, PreHook(c, st, true), env);
  }

  lemma {:induction false} ValidateChildrenUnchanged(cs: seq<Component>, st: State, env: Env)
    ensures RunChildren(cs, st, true, env) == Ok(st)
    decreases cs
  {
    if cs != [] {
      ValidateOnlyUnchanged(cs[0], st, env);
      ValidateChildrenUnchanged(cs[1..], st, env);
    }
  }

  /** The file system only grows: no directory or file disappears. */
  predicate Grows(a: FileSystem, b: FileSystem)
  {
    a.dirs <= b.dirs && a.files.Keys <= b.files.Keys
  }

  lemma ExecuteHookFrame(c: Component, st: State, validateOnly: bool, env: Env)
    ensures var r := ExecuteHook(c, st, validateOnly, env);
            r.Ok? ==> r.value.dir == st.dir && r.value.indent == st.indent
                      && r.value.file == st.file && Grows(st.fs, r.value.fs)
  {
  }

  /**
   * After any component and its subtree, the current directory and the
   * indent level are back to what they were, and nothing was removed from
   * the file system.
   */
  lemma {:induction false} RunRestores(c: Component, st: State, validateOnly: bool, env: Env)
    ensures var r := Run(c, st, validateOnly, env);
            r.Ok? ==> r.value.dir == st.dir && r.value.indent == st.indent && Grows(st.fs, r.value.fs)
    decreases c
  {
    var s0 := PreHook(c, st, validateOnly);
    assert Grows(st.fs, s0.fs);
    ExecuteHookFrame(c, s0, validateOnly, env);
    var r1 := ExecuteHook(c, s0, validateOnly, env);
    if r1.Ok? {
      ChildrenRestore(c.children, r1.value, validateOnly, env);
    }
  }

  lemma {:induction false} ChildrenRestore(cs: seq<Component>, st: State, validateOnly: bool, env: Env)
    ensures var r := RunChildren(cs, st, validateOnly, env);
            r.Ok? ==> r.value.dir == st.dir && r.value.indent == st.indent && Grows(st.fs, r.value.fs)
    decreases cs
  {
    if cs != [] {
      RunRestores(cs[0], st, validateOnly, env);
      var r0 := Run(cs[0], st, validateOnly, env);
      if r0.Ok? {
        ChildrenRestore(cs[1..], r0.value, validateOnly, env);
      }
    }
  }

  /** A directory component that runs through leaves its directory in place. */
  lemma DirCreated(n: string, cs: seq<Component>, st: State, env: Env)
    ensures var r := Run(Dir(n, cs), st, false, env);
            r.Ok? ==> Exists(r.value.fs, PathJoin(st.dir, n))
  {
    var s0 := PreHook(Dir(n, cs), st, false);
    var r1 := ExecuteHook(Dir(n, cs), s0, false, env);
    assert Exists(r1.value.fs, PathJoin(st.dir, n));
    ChildrenRestore(cs, r1.value, false, env);
  }

  /**
   * A file component without children: the file at `join(current, name)`
   * holds exactly its populated resource, indented at the current level,
   * and no file is open afterwards; a resource that is not packaged is an
   * error.
   */
  lemma FileLeaf(n: string, t: string, reps: Replacements, st: State, env: Env)
    ensures var r := Run(File(n, t, reps, []), st, false, env);
            var p := PathJoin(st.dir, n);
            && (r.Ok? <==> t in env.resources)
            && (r.Err? ==> r.error == MissingResource(t))
            && (r.Ok? ==> r.value == st.(file := None, fs := st.fs.(files := st.fs.files[p :=
                 Indented(Indent(st.indent), SubstituteLines(env.resources[t], reps, env.lazy))])))
  {
    var p := PathJoin(st.dir, n);
    var s0 := PreHook(File(n, t, reps, []), st, false);
    if t in env.resources {
      var text := Indented(Indent(st.indent), SubstituteLines(env.resources[t], reps, env.lazy));
      assert "" + text == text;
      assert st.fs.files[p := ""][p := text] == st.fs.files[p := text];
    }
  }

  /**
   * A code component without children appends its populated resource to
   * the open file, indented by the current level plus its own, and leaves
   * every other file as it was.
   */
  lemma CodeLeaf(t: string, reps: Replacements, k: int, st: State, env: Env)
    requires st.file.Some? && st.file.value in st.fs.files
    ensures var r := Run(Code(t, reps, k, []), st, false, env);
            var p := st.file.value;
            && (r.Ok? <==> t in env.resources)
            && (r.Err? ==> r.error == MissingResource(t))
            && (r.Ok? ==>
                  && r.value.dir == st.dir && r.value.file == st.file && r.value.indent == st.indent
                  && r.value.fs.dirs == st.fs.dirs && r.value.fs.files.Keys == st.fs.files.Keys
                  && r.value.fs.files[p] == st.fs.files[p] + Indented(Indent(st.indent + k), SubstituteLines(env.resources[t], reps, env.lazy))
                  && (forall q :: q in st.fs.files && q != p ==> r.value.fs.files[q] == st.fs.files[q]))
  {
    var p := st.file.value;
    if t in env.resources {
      var lines := SubstituteLines(env.resources[t], reps, env.lazy);
      if lines == [] {
        assert st.fs.files[p] + Indented(Indent(st.indent + k), lines) == st.fs.files[p];
      }
    }
  }

  /** A file component directly inside another: the inner one closes the file, so the outer close fails. */
  lemma NestedFileFails(n1: string, t1: string, r1: Replacements, n2: string, t2: string, r2: Replacements, st: State, env: Env)
    requires t1 in env.resources && t2 in env.resources
    ensures Run(File(n1, t1, r1, [File(n2, t2, r2, [])]), st, false, env) == Err(NoOpenFile)
  {
    var outer := File(n1, t1, r1, [File(n2, t2, r2, [])]);
    var s0 := PreHook(outer, st, false);
    var s1 := ExecuteHook(outer, s0, false, env).value;
    FileLeaf(n2, t2, r2, s1, env);
    RunOne(File(n2, t2, r2, []), s1, false, env);
  }
}
