/**
 * `Template.run` and `Template._do_run`: a fresh context whose current
 * directory is the destination folder, then the template's tree built and
 * executed twice, first to validate, then to write.
 */
module Generation {
  import opened Wrappers
  import opened Config
  import opened Resources
  import opened Components
  import AppTemplate
  import ClientTemplate

  /** The two templates the generator offers. */
  datatype TemplateKind = AppKind | ClientKind

  /** What a run can raise: a configuration error while the tree is built, or an error while it is executed. */
  datatype RunError = ConfigFailed(config: ConfigError) | ExecFailed(exec: ExecError)

  /** A built tree, and the text its deferred replacement values take when they are written. */
  datatype Built = Built(root: Component, lazy: string -> string)

  /** The client tree has no deferred value. */
  function NoDeferred(): string -> string
  {
    k => ""
  }

  /** The tree the chosen template builds from the configuration. */
  function BuiltOf(kind: TemplateKind, store: Store): Result<Built, ConfigError>
  {
    match kind
    case AppKind =>
      var t :- AppTemplate.AppTreeOf(store);
      Ok(Built(t.root, AppTemplate.ImportsResolver(t.hasEvents, t.hasServices)))
    case ClientKind =>
      var root :- ClientTemplate.ClientTreeOf(store);
      Ok(Built(root, NoDeferred()))
  }

  /** `_get_root_component` of the chosen template. */
  method GetRoot(kind: TemplateKind, store: Store) returns (r: Result<Built, ConfigError>)
    ensures r == BuiltOf(kind, store)
  {
    match kind
    case AppKind =>
      var t := AppTemplate.GetRootComponent(store);
      if t.Err? {
        return Err(t.error);
      }
      return Ok(Built(t.value.root, AppTemplate.ImportsResolver(t.value.hasEvents, t.value.hasServices)));
    case ClientKind =>
      var root := ClientTemplate.GetRootComponent(store);
      if root.Err? {
        return Err(root.error);
      }
      return Ok(Built(root.value, NoDeferred()));
  }

  /** One real execution of the template's tree from state `st`: the state it leaves, or the error. */
  function RunOnce(kind: TemplateKind, store: Store, st: State, resources: Resources): Result<State, RunError>
  {
    match BuiltOf(kind, store)
    case Err(e) => Err(ConfigFailed(e))
    case Ok(b) =>
      match Run(b.root, st, false, Env(resources, b.lazy))
      case Err(e) => Err(ExecFailed(e))
      case Ok(s) => Ok(s)
  }

  /**
   * What generating into `dest` does to the file system: one real
   * execution of the tree from a context in `dest` with no open file and
   * indent level zero.
   */
  function Generated(kind: TemplateKind, store: Store, resources: Resources, fs: FileSystem, dest: Path)
    : Result<FileSystem, RunError>
  {
    match RunOnce(kind, store, State(dest, None, 0, fs), resources)
    case Err(e) => Err(e)
    case Ok(s) => Ok(s.fs)
  }

  /**
   * `_do_run`: the validating pass changes nothing, so the run is one real
   * execution; a configuration error is raised before anything is written.
   */
  method DoRun(kind: TemplateKind, store: Store, ctx: TemplateContext) returns (err: Option<RunError>)
    modifies ctx
    ensures err.None? ==> RunOnce(kind, store, old(ctx.Snapshot()), ctx.resources) == Ok(ctx.Snapshot())
    ensures err.Some? ==> RunOnce(kind, store, old(ctx.Snapshot()), ctx.resources) == Err(err.value)
    ensures BuiltOf(kind, store).Err? ==> ctx.Snapshot() == old(ctx.Snapshot())
  {
    ghost var st0 := ctx.Snapshot();
    var b := GetRoot(kind, store);
    if b.Err? {
      return Some(ConfigFailed(b.error));
    }
    var e := ctx.Execute(b.value.root, true, b.value.lazy);
    ValidateOnlyUnchanged(b.value.root, st0, Env(ctx.resources, b.value.lazy));
    if e.None? {
      var b2 := GetRoot(kind, store);
      assert b2 == b;
      e := ctx.Execute(b2.value.root, false, b2.value.lazy);
    }
    if e.Some? {
      return Some(ExecFailed(e.value));
    }
    return None;
  }

  /** `run(config, dest_folder)`: a fresh context in the destination folder, then `_do_run`. */
  method RunTemplate(kind: TemplateKind, store: Store, resources: Resources, fs: FileSystem, dest: Path)
    returns (r: Result<FileSystem, RunError>)
    ensures r == Generated(kind, store, resources, fs, dest)
  {
    var ctx := new TemplateContext(resources, fs);
    ctx.currentDirectory := dest;
    var err := DoRun(kind, store, ctx);
    if err.Some? {
      return Err(err.value);
    }
    return Ok(ctx.fs);
  }

  /**
   * A generation removes nothing from the file system: every directory and
   * file that existed before is still there; and a run leaves the context
   * back in the directory and at the indent level it started from.
   */
  lemma GenerationOnlyAdds(kind: TemplateKind, store: Store, resources: Resources, fs: FileSystem, dest: Path)
    ensures var r := Generated(kind, store, resources, fs, dest);
            r.Ok? ==> Grows(fs, r.value)
    ensures var r := RunOnce(kind, store, State(dest, None, 0, fs), resources);
            r.Ok? ==> r.value.dir == dest && r.value.indent == 0
  {
    var b := BuiltOf(kind, store);
    if b.Ok? {
      RunRestores(b.value.root, State(dest, None, 0, fs), false, Env(resources, b.value.lazy));
    }
  }
}
