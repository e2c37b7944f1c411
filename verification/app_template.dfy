/**
 * The application template: the configuration sections it reads
 * (`Application`, one section per service, one per event or request
 * handler) and the component tree it builds from them.
 *
 * The build steps share a dictionary of components. Three of its entries
 * keep growing after they have been attached to the tree: the basic
 * sample file, the application directory and its `app.py`. The
 * `ComponentsDict` value holds those three as separate fields and `Root`
 * places them where they were attached; every other step attaches
 * finished subtrees. A handler loop that grows a local component after
 * attaching it is modelled by attaching it once complete: no component is
 * executed while the tree is being built, so the tree is the same.
 */
module AppTemplate {
  import opened Wrappers
  import opened Text
  import opened Config
  import opened Resources
  import opened Components
  import opened TemplateHelpers

  const TemplateName := "application-template"

  // ---------------------------------------------------------------------
  // AppTemplateConfig

  function ApplicationSection(store: Store): Section
  {
    Section(store, "Application")
  }

  /** `app_class_name`: required. */
  function AppClassName(store: Store): Result<string, ConfigError>
  {
    RequiredProperty(ApplicationSection(store), "appClassName")
  }

  /** `event_handlers`: a list property, [] when absent. */
  function EventHandlerNames(store: Store): seq<string>
  {
    ListProperty(ApplicationSection(store), "eventHandlers", Some([]), false).value
  }

  /** `services`: a list property, [] when absent. */
  function ServiceNames(store: Store): seq<string>
  {
    ListProperty(ApplicationSection(store), "services", Some([]), false).value
  }

  const AppImplicitRequires: seq<string> := ["dxlbootstrap", "dxlclient"]

  /** `install_requires` of the application section: the declared packages, then the two the template always needs. */
  function AppInstallRequires(store: Store): (r: seq<string>)
    ensures |r| >= 2 && r[|r| - 2..] == ["dxlbootstrap", "dxlclient"]
    ensures var sec := ApplicationSection(store);
            r[..|r| - 2] == (if sec.Has("installRequires") then ListItems(sec.Get("installRequires")) else [])
  {
    InstallRequires(ApplicationSection(store), AppImplicitRequires)
  }

  /** `service_type` of a service section: required. */
  function ServiceType(store: Store, service: string): Result<string, ConfigError>
  {
    RequiredProperty(Section(store, service), ServiceTypeKey)
  }

  /** `request_handlers` of a service section: a list property, [] when absent. */
  function RequestHandlerNames(store: Store, service: string): seq<string>
  {
    ListProperty(Section(store, service), RequestHandlersKey, Some([]), false).value
  }

  /** `topic` of a handler section (event handlers use the request-handler section): required. */
  function Topic(store: Store, handler: string): Result<string, ConfigError>
  {
    RequiredProperty(Section(store, handler), TopicKey)
  }

  /** `class_name` of a handler section: required. */
  function ClassName(store: Store, handler: string): Result<string, ConfigError>
  {
    RequiredProperty(Section(store, handler), ClassNameKey)
  }

  /** `separate_thread` of a handler section: a boolean, True when absent. */
  function SeparateThread(store: Store, handler: string): Result<bool, ConfigError>
  {
    var b := GetBooleanProperty(Section(store, handler), SeparateThreadKey, Some(true), false);
    if b.Err? then Err(b.error) else Ok(b.value.value)
  }

  /** What the tree needs of one event or request handler. */
  datatype Handler = Handler(name: string, className: string, topic: string, separateThread: bool)

  /** A handler's section read in the order the source reads it: className, topic, separateThread. */
  function HandlerOf(store: Store, name: string): Result<Handler, ConfigError>
  {
    var className :- ClassName(store, name);
    var topic :- Topic(store, name);
    var separateThread :- SeparateThread(store, name);
    Ok(Handler(name, className, topic, separateThread))
  }

  /** The handlers of a list, or the error of the first one whose section is incomplete. */
  function HandlersOf(store: Store, names: seq<string>): (r: Result<seq<Handler>, ConfigError>)
    ensures r.Ok? ==> |r.value| == |names|
    ensures r.Ok? ==> forall i :: 0 <= i < |names| ==> HandlerOf(store, names[i]) == Ok(r.value[i])
  {
    if names == [] then Ok([])
    else
      var init :- HandlersOf(store, names[..|names| - 1]);
      var last :- HandlerOf(store, names[|names| - 1]);
      Ok(init + [last])
  }

  datatype Service = Service(name: string, serviceType: string, handlers: seq<Handler>)

  /** A service's section, then its request handlers' sections, in that order. */
  function ServiceOf(store: Store, name: string): Result<Service, ConfigError>
  {
    var serviceType :- ServiceType(store, name);
    var handlers :- HandlersOf(store, RequestHandlerNames(store, name));
    Ok(Service(name, serviceType, handlers))
  }

  /** The services of a list, or the error of the first one whose sections are incomplete. */
  function ServicesOf(store: Store, names: seq<string>): (r: Result<seq<Service>, ConfigError>)
    ensures r.Ok? ==> |r.value| == |names|
    ensures r.Ok? ==> forall i :: 0 <= i < |names| ==> ServiceOf(store, names[i]) == Ok(r.value[i])
  {
    if names == [] then Ok([])
    else
      var init :- ServicesOf(store, names[..|names| - 1]);
      var last :- ServiceOf(store, names[|names| - 1]);
      Ok(init + [last])
  }

  // ---------------------------------------------------------------------
  // create_pip_install

  function PipLine(req: string): string
  {
    "RUN pip install \"" + req + "\""
  }

  function PipLines(reqs: seq<string>): (lines: seq<string>)
    ensures |lines| == |reqs|
    ensures forall i :: 0 <= i < |reqs| ==> lines[i] == PipLine(reqs[i])
  {
    seq(|reqs|, i requires 0 <= i < |reqs| => PipLine(reqs[i]))
  }

  /** The Dockerfile's install lines: one per requirement, separated by line breaks. */
  function PipInstallText(reqs: seq<string>): string
  {
    Join(PipLines(reqs), "\n")
  }

  /** `create_pip_install`: a line break before every requirement but the first. */
  method CreatePipInstall(reqs: seq<string>) returns (r: string)
    ensures r == PipInstallText(reqs)
  {
    r := "";
    var first := true;
    var i := 0;
    while i < |reqs|
      invariant 0 <= i <= |reqs|
      invariant first <==> i == 0
      invariant r == PipInstallText(reqs[..i])
    {
      assert PipLines(reqs[..i + 1]) == PipLines(reqs[..i]) + [PipLine(reqs[i])];
      if !first {
        JoinAppend(PipLines(reqs[..i]), PipLine(reqs[i]), "\n");
      }
      r := r + (if first then "" else "\n") + PipLine(reqs[i]);
      first := false;
      i := i + 1;
    }
    assert reqs[..i] == reqs;
  }

  /**
   * No requirement gives no text; otherwise the text starts with the first
   * requirement's line (no leading line break) and holds one line break
   * fewer than there are requirements.
   */
  lemma {:induction false} PipInstallLines(reqs: seq<string>)
    requires forall i :: 0 <= i < |reqs| ==> '\n' !in reqs[i]
    ensures reqs == [] ==> PipInstallText(reqs) == ""
    ensures reqs != [] ==> PipLine(reqs[0]) <= PipInstallText(reqs)
    ensures reqs != [] ==> Count(PipInstallText(reqs), '\n') == |reqs| - 1
  {
    if |reqs| == 1 {
      PipLineCount(reqs[0]);
    } else if |reqs| > 1 {
      var init := reqs[..|reqs| - 1];
      var last := reqs[|reqs| - 1];
      PipInstallLines(init);
      PipLineCount(last);
      assert init[0] == reqs[0];
      assert PipLines(reqs) == PipLines(init) + [PipLine(last)];
      JoinAppend(PipLines(init), PipLine(last), "\n");
      CountAppend(PipInstallText(init) + "\n", PipLine(last), '\n');
      CountAppend(PipInstallText(init), "\n", '\n');
    }
  }

  lemma PipLineCount(req: string)
    requires '\n' !in req
    ensures Count(PipLine(req), '\n') == 0
  {
    NoCount(PipLine(req), '\n');
  }

  // ---------------------------------------------------------------------
  // _get_additional_imports

  const ServiceImports := "from dxlclient.service import ServiceRegistrationInfo\nfrom requesthandlers import *\n"
  const EventImports := "from eventhandlers import *\n"

  /** The extra imports of app.py, for the flags as they are when app.py is written. */
  function AdditionalImports(hasEvents: bool, hasServices: bool): string
  {
    if hasEvents || hasServices then
      "\n" + (if hasServices then ServiceImports else "") + (if hasEvents then EventImports else "")
    else ""
  }

  /**
   * Nothing without events or services; otherwise a line break first, the
   * service imports exactly when there are services, the event import
   * exactly when there are events, services before events.
   */
  lemma AdditionalImportsShape(hasEvents: bool, hasServices: bool)
    ensures AdditionalImports(hasEvents, hasServices) == "" <==> !hasEvents && !hasServices
    ensures hasEvents || hasServices ==> AdditionalImports(hasEvents, hasServices)[0] == '\n'
    ensures hasServices ==> AdditionalImports(hasEvents, hasServices)[1..] == ServiceImports + (if hasEvents then EventImports else "")
    ensures !hasServices && hasEvents ==> AdditionalImports(hasEvents, hasServices) == "\n" + EventImports
  {
    if hasServices {
      assert AdditionalImports(hasEvents, hasServices) == "\n" + (ServiceImports + (if hasEvents then EventImports else ""));
    } else if hasEvents {
      assert AdditionalImports(hasEvents, hasServices) == "\n" + "" + EventImports;
    }
  }

  /** The name under which app.py's replacement dictionary holds the deferred imports. */
  const ImportsKey := "additionalImports"

  /** The deferred values of an application tree, read from the final flags. */
  function ImportsResolver(hasEvents: bool, hasServices: bool): string -> string
  {
    k => if k == ImportsKey then AdditionalImports(hasEvents, hasServices) else ""
  }

  // ---------------------------------------------------------------------
  // The components each step attaches

  /** The code and file templates of the handler steps. */
  const EventCallbackTemplate := "app/code/events_event_callback.code.tmpl"
  const EventRegistrationTemplate := "app/code/register_event_handler.code.tmpl"
  const EventSampleTemplate := "sample/basic/code/event.code.tmpl"
  const RequestCallbackTemplate := "app/code/requests_request_callback.code.tmpl"
  const ServiceAddTopicTemplate := "app/code/service_add_topic.code.tmpl"
  const RequestSampleTemplate := "sample/basic/code/request.code.tmpl"
  const ServiceCreateTemplate := "app/code/service_create.code.tmpl"
  const ServiceRegisterTemplate := "app/code/service_register.code.tmpl"
  const RegisterEventHandlersTemplate := "app/code/register_event_handler_def.code.tmpl"
  const RegisterServicesTemplate := "app/code/register_services_def.code.tmpl"
  const EventHandlersFileTemplate := "app/eventhandlers.py.tmpl"
  const RequestHandlersFileTemplate := "app/requesthandlers.py.tmpl"

  /** The option names, replacement keys and file names of the handler steps. */
  const ClassNameKey := "className"
  const NameKey := "name"
  const TopicKey := "topic"
  const CallbackNameKey := "callbackName"
  const SeparateThreadKey := "separateThread"
  const ServiceTypeKey := "serviceType"
  const ServiceNameKey := "serviceName"
  const RequestHandlersKey := "requestHandlers"
  const PyTrue := "True"
  const PyFalse := "False"
  const RequestHandlersFileName := "requesthandlers.py"
  const EventHandlersFileName := "eventhandlers.py"

  function PyStr(b: bool): string
  {
    if b then PyTrue else PyFalse
  }

  function EventCallback(h: Handler): Component
  {
    Code(EventCallbackTemplate,
         [(ClassNameKey, Literal(h.className)), (NameKey, Literal(h.name)), (TopicKey, Literal(h.topic))], 0, [])
  }

  function EventRegistration(h: Handler): Component
  {
    Code(EventRegistrationTemplate,
         [(ClassNameKey, Literal(h.className)), (TopicKey, Literal(h.topic)),
          (CallbackNameKey, Literal(h.name)), (SeparateThreadKey, Literal(PyStr(h.separateThread)))], 1, [])
  }

  function EventSample(h: Handler): Component
  {
    Code(EventSampleTemplate, [(TopicKey, Literal(h.topic)), (CallbackNameKey, Literal(h.name))], 1, [])
  }

  function RequestCallback(h: Handler): Component
  {
    Code(RequestCallbackTemplate,
         [(ClassNameKey, Literal(h.className)), (NameKey, Literal(h.name)), (TopicKey, Literal(h.topic))], 0, [])
  }

  function ServiceAddTopic(h: Handler): Component
  {
    Code(ServiceAddTopicTemplate,
         [(TopicKey, Literal(h.topic)), (ClassNameKey, Literal(h.className)),
          (SeparateThreadKey, Literal(PyStr(h.separateThread))), (CallbackNameKey, Literal(h.name))], 1, [])
  }

  function RequestSample(h: Handler): Component
  {
    Code(RequestSampleTemplate, [(TopicKey, Literal(h.topic)), (NameKey, Literal(h.name))], 1, [])
  }

  function ServiceCreate(name: string, serviceType: string): Component
  {
    Code(ServiceCreateTemplate,
         [(ServiceTypeKey, Literal(serviceType)), (ServiceNameKey, Literal(name))], 1, [])
  }

  const ServiceRegister := Code(ServiceRegisterTemplate, [], 1, [])

  /** One component per handler, in the handlers' order. */
  function EachHandler(hs: seq<Handler>, f: Handler -> Component): seq<Component>
  {
    seq(|hs|, i requires 0 <= i < |hs| => f(hs[i]))
  }

  /** What a handler step adds to app.py, to the application directory and to the basic sample. */
  datatype Additions = Additions(appFile: seq<Component>, appDir: seq<Component>, sample: seq<Component>)

  function EventAdditions(hs: seq<Handler>): Additions
  {
    if hs == [] then Additions([], [], [])
    else Additions(
      [Code(RegisterEventHandlersTemplate, [], 1, EachHandler(hs, EventRegistration))],
      [File(EventHandlersFileName, EventHandlersFileTemplate, [], EachHandler(hs, EventCallback))],
      EachHandler(hs, EventSample))
  }

  /** The request handlers of the services, in order. */
  function AllHandlers(svcs: seq<Service>): seq<Handler>
  {
    if svcs == [] then [] else AllHandlers(svcs[..|svcs| - 1]) + svcs[|svcs| - 1].handlers
  }

  /** A service's registration fragments: create, one add-topic per handler, register. */
  function ServiceBlock(s: Service): seq<Component>
  {
    [ServiceCreate(s.name, s.serviceType)] + EachHandler(s.handlers, ServiceAddTopic) + [ServiceRegister]
  }

  function ServiceBlocks(svcs: seq<Service>): seq<Component>
  {
    if svcs == [] then [] else ServiceBlocks(svcs[..|svcs| - 1]) + ServiceBlock(svcs[|svcs| - 1])
  }

  function RequestsFile(hs: seq<Handler>): Component
  {
    File(RequestHandlersFileName, RequestHandlersFileTemplate, [], EachHandler(hs, RequestCallback))
  }

  function ServiceAdditions(svcs: seq<Service>): Additions
  {
    if svcs == [] then Additions([], [], [])
    else
      var hs := AllHandlers(svcs);
      Additions(
        [Code(RegisterServicesTemplate, [], 1, ServiceBlocks(svcs))],
        if hs == [] then [] else [RequestsFile(hs)],
        EachHandler(hs, RequestSample))
  }

  /** `c` with `more` added after its children. */
  function AddChildren(c: Component, more: seq<Component>): Component
  {
    c.(children := c.children + more)
  }

  lemma AddChildrenSnoc(c: Component, more: seq<Component>, child: Component)
    ensures AddChild(AddChildren(c, more), child) == AddChildren(c, more + [child])
  {
    assert c.children + more + [child] == c.children + (more + [child]);
  }

  lemma AddChildOne(c: Component, child: Component)
    ensures AddChild(c, child) == AddChildren(c, [child])
  {
  }

  lemma AddChildrenNone(c: Component)
    ensures AddChildren(c, []) == c
  {
    assert c.children + [] == c.children;
  }

  // ---------------------------------------------------------------------
  // The fixed parts of the tree

  /**
   * What the five fixed steps read from the `Application` section. Every
   * step that can fail fails on a missing `fullName`, `name` or
   * `appClassName`; reading them in this order gives the error the first
   * failing step raises.
   */
  datatype AppSettings = AppSettings(fullName: string, name: string, className: string,
                                     copyright: string, installRequires: seq<string>)

  function AppSettingsOf(store: Store): Result<AppSettings, ConfigError>
  {
    var app := ApplicationSection(store);
    var fullName :- FullName(app);
    var name :- Name(app);
    var className :- AppClassName(store);
    Ok(AppSettings(fullName, name, className, Copyright(app), AppInstallRequires(store)))
  }

  /** The eight files at the root of the generated tree, in the order they are attached. */
  function RootFilesFrom(fullName: string, name: string, copyright: string, reqs: seq<string>): seq<Component>
  {
    [File("README", "README.tmpl",
          [("fullName", Literal(fullName)), ("fullNameSep", Literal(Underline(|fullName|, '='))),
           ("copyright", Literal(copyright))], []),
     File("README.md", "README.md.tmpl", [("fullName", Literal(fullName)), ("copyright", Literal(copyright))], []),
     File("setup.py", "setup.py.tmpl",
          [("name", Literal(name)), ("installRequires", Literal(InstallRequiresText(reqs)))], []),
     File("LICENSE", "LICENSE.tmpl", [], []),
     File("MANIFEST.in", "MANIFEST.in.tmpl", [], []),
     File("dist.py", "dist.py.tmpl", [("name", Literal(name))], []),
     File("clean.py", "clean.py.tmpl", [("name", Literal(name))], []),
     File("Dockerfile", "Dockerfile.tmpl", [("name", Literal(name)), ("pipInstall", Literal(PipInstallText(reqs)))], [])]
  }

  /** The config directory: the logging and client configurations, then the application's, each with a `.dist` copy. */
  function ConfigDirFrom(name: string, fullName: string): Component
  {
    Dir("config", [
      File("logging.config", "config/logging.config.tmpl", [], []),
      File("logging.config.dist", "config/logging.config.tmpl", [], []),
      File("dxlclient.config", "config/dxlclient.config.tmpl", [], []),
      File("dxlclient.config.dist", "config/dxlclient.config.tmpl", [], []),
      File(name + ".config", "config/app.config.tmpl", [("fullName", Literal(fullName))], []),
      File(name + ".config.dist", "config/app.config.tmpl", [("fullName", Literal(fullName))], [])])
  }

  const SampleFiles: seq<Component> := [
    File("dxlclient.config", "config/dxlclient.config.tmpl", [], []),
    File("dxlclient.config.dist", "config/dxlclient.config.tmpl", [], []),
    File("common.py", "sample/common.py.tmpl", [], [])]

  const BasicSample := File("basic_sample.py", "sample/basic/basic_sample.py.tmpl", [], [])

  /** The sample directory, with the basic sample as it is when the tree is returned. */
  function SampleDir(basicSample: Component): Component
  {
    Dir("sample", SampleFiles + [Dir("basic", [basicSample])])
  }

  function ConfigTitle(fullName: string, name: string): string
  {
    fullName + " (" + name + ".config)"
  }

  /** The doc directory: `conf.py`, then the SDK documentation. */
  function DocDirFrom(copyright: string, fullName: string, name: string): Component
  {
    Dir("doc", [
      File("conf.py", "doc/conf.py.tmpl",
           [("copyright", Literal(copyright)), ("fullName", Literal(fullName)), ("name", Literal(name))], []),
      SdkDir(copyright, fullName, name)])
  }

  function SdkDir(copyright: string, fullName: string, name: string): Component
  {
    var title := ConfigTitle(fullName, name);
    Dir("sdk", [
      File("index.rst", "doc/sdk/index.rst.tmpl",
           [("fullName", Literal(fullName)), ("fullNameSep", Literal(Underline(|fullName|, '='))),
            ("name", Literal(name))], []),
      File("README.html", "doc/sdk/README.html.tmpl",
           [("copyright", Literal(copyright)), ("fullName", Literal(fullName))], []),
      File("overview.rst", "doc/sdk/overview.rst.tmpl", [], []),
      File("installation.rst", "doc/sdk/installation.rst.tmpl", [("name", Literal(name))], []),
      File("running.rst", "doc/sdk/running.rst.tmpl", [("name", Literal(name))], []),
      File("configuration.rst", "doc/sdk/configuration.rst.tmpl",
           [("fullName", Literal(fullName)), ("name", Literal(name)), ("configTitle", Literal(title)),
            ("configTitleSep", Literal(Underline(|title|, '-')))], []),
      File("sampleconfig.rst", "doc/sdk/sampleconfig.rst.tmpl", [("fullName", Literal(fullName))], [])])
  }

  /** The application directory's name and its three files, app.py in the middle. */
  datatype AppFiles = AppFiles(name: string, init: Component, appFile: Component, main: Component)

  function AppDirFrom(name: string, className: string, fullName: string): AppFiles
  {
    AppFiles(name,
      File("__init__.py", "app/__init__.py.tmpl",
           [("appClassName", Literal(className)), ("relPackage", Literal(".app"))], []),
      File("app.py", "app/app.py.tmpl",
           [("appClassName", Literal(className)), ("name", Literal(name)), ("fullName", Literal(fullName)),
            (ImportsKey, Deferred(ImportsKey))], []),
      File("__main__.py", "app/__main__.py.tmpl",
           [("appClassName", Literal(className)), ("name", Literal(name))], []))
  }

  // ---------------------------------------------------------------------
  // The components dictionary and the build steps

  /**
   * `components_dict`, the dictionary the steps share: the two flags, the
   * root's files and directories, the basic sample file, and the
   * application directory with app.py apart. Each step is given the
   * dictionary and hands back the updated one.
   */
  datatype ComponentsDict = ComponentsDict(
    hasServices: bool,
    hasEvents: bool,
    rootFiles: seq<Component>,
    configDir: Component,
    /** "basic_sample_comp" */
    basicSample: Component,
    docDir: Component,
    /** "app_dir": its name and its children, app.py apart */
    appName: string,
    appInit: Component,
    /** "app_file_comp" */
    appFile: Component,
    appMain: Component,
    appDirMore: seq<Component>)
  {
    /**
     * The tree `components_dict["root"]` denotes: the root files, then the
     * config, sample, doc and application directories, in the order the
     * steps attach them; the application directory holds `__init__.py`,
     * `app.py`, `__main__.py`, then what the handler steps add to it.
     */
    function Root(): Component
    {
      Dir("", rootFiles + [configDir, SampleDir(basicSample), docDir, AppDir()])
    }

    function AppDir(): Component
    {
      Dir(appName, [appInit, appFile, appMain] + appDirMore)
    }
  }

  /** A fresh dictionary: both flags False, no component yet. */
  const NewDict := ComponentsDict(false, false, [], Generic([]), Generic([]), Generic([]), "",
                                  Generic([]), Generic([]), Generic([]), [])

  /** `_build_root_directory`: the eight root files, attached one by one. */
  method BuildRootDirectory(store: Store, dict: ComponentsDict) returns (err: Option<ConfigError>, dict': ComponentsDict)
    ensures var app := ApplicationSection(store);
            && (err.Some? <==> FullName(app).Err? || Name(app).Err?)
            && (err.Some? ==> err.value == if FullName(app).Err? then FullName(app).error else Name(app).error)
            && (err.None? ==>
                  dict' == dict.(rootFiles := RootFilesFrom(FullName(app).value, Name(app).value, Copyright(app),
                                                            AppInstallRequires(store))))
  {
    dict' := dict;
    var app := ApplicationSection(store);
    var fullName := FullName(app);
    if fullName.Err? {
      return Some(fullName.error), dict';
    }
    var name := Name(app);
    if name.Err? {
      return Some(name.error), dict';
    }
    var copyright := Copyright(app);
    var reqs := AppInstallRequires(store);
    var fullNameSep := CreateUnderline(|fullName.value|, '=');
    assert fullNameSep == Underline(|fullName.value|, '=');
    var installRequires := CreateInstallRequires(reqs);
    var pipInstall := CreatePipInstall(reqs);
    var root := Dir("", []);
    root := AddChild(root, File("README", "README.tmpl",
      [("fullName", Literal(fullName.value)), ("fullNameSep", Literal(fullNameSep)), ("copyright", Literal(copyright))], []));
    root := AddChild(root, File("README.md", "README.md.tmpl",
      [("fullName", Literal(fullName.value)), ("copyright", Literal(copyright))], []));
    root := AddChild(root, File("setup.py", "setup.py.tmpl",
      [("name", Literal(name.value)), ("installRequires", Literal(installRequires))], []));
    root := AddChild(root, File("LICENSE", "LICENSE.tmpl", [], []));
    root := AddChild(root, File("MANIFEST.in", "MANIFEST.in.tmpl", [], []));
    root := AddChild(root, File("dist.py", "dist.py.tmpl", [("name", Literal(name.value))], []));
    root := AddChild(root, File("clean.py", "clean.py.tmpl", [("name", Literal(name.value))], []));
    root := AddChild(root, File("Dockerfile", "Dockerfile.tmpl",
      [("name", Literal(name.value)), ("pipInstall", Literal(pipInstall))], []));
    dict' := dict.(rootFiles := root.children);
    return None, dict';
  }

  /** `_build_config_directory` */
  method BuildConfigDirectory(store: Store, dict: ComponentsDict) returns (err: Option<ConfigError>, dict': ComponentsDict)
    ensures var app := ApplicationSection(store);
            && (err.Some? <==> Name(app).Err? || FullName(app).Err?)
            && (err.Some? ==> err.value == if Name(app).Err? then Name(app).error else FullName(app).error)
            && (err.None? ==> dict' == dict.(configDir := ConfigDirFrom(Name(app).value, FullName(app).value)))
  {
    dict' := dict;
    var app := ApplicationSection(store);
    var dir := Dir("config", []);
    dir := AddChild(dir, File("logging.config", "config/logging.config.tmpl", [], []));
    dir := AddChild(dir, File("logging.config.dist", "config/logging.config.tmpl", [], []));
    dir := AddChild(dir, File("dxlclient.config", "config/dxlclient.config.tmpl", [], []));
    dir := AddChild(dir, File("dxlclient.config.dist", "config/dxlclient.config.tmpl", [], []));
    var name := Name(app);
    if name.Err? {
      return Some(name.error), dict';
    }
    var fullName := FullName(app);
    if fullName.Err? {
      return Some(fullName.error), dict';
    }
    dir := AddChild(dir, File(name.value + ".config", "config/app.config.tmpl", [("fullName", Literal(fullName.value))], []));
    dir := AddChild(dir, File(name.value + ".config.dist", "config/app.config.tmpl", [("fullName", Literal(fullName.value))], []));
    assert dir == ConfigDirFrom(name.value, fullName.value);
    dict' := dict.(configDir := dir);
    return None, dict';
  }

  /** `_build_sample_directory`: the sample files are fixed; the basic sample starts with no fragment. */
  method BuildSampleDirectory(dict: ComponentsDict) returns (dict': ComponentsDict)
    ensures dict' == dict.(basicSample := BasicSample)
  {
    dict' := dict.(basicSample := File("basic_sample.py", "sample/basic/basic_sample.py.tmpl", [], []));
  }

  /** `_build_docs_directory` */
  method BuildDocsDirectory(store: Store, dict: ComponentsDict) returns (err: Option<ConfigError>, dict': ComponentsDict)
    ensures var app := ApplicationSection(store);
            && (err.Some? <==> FullName(app).Err? || Name(app).Err?)
            && (err.Some? ==> err.value == if FullName(app).Err? then FullName(app).error else Name(app).error)
            && (err.None? ==> dict' == dict.(docDir := DocDirFrom(Copyright(app), FullName(app).value, Name(app).value)))
  {
    dict' := dict;
    var app := ApplicationSection(store);
    var copyright := Copyright(app);
    var fullName := FullName(app);
    if fullName.Err? {
      return Some(fullName.error), dict';
    }
    var name := Name(app);
    if name.Err? {
      return Some(name.error), dict';
    }
    var doc := Dir("doc", []);
    doc := AddChild(doc, File("conf.py", "doc/conf.py.tmpl",
      [("copyright", Literal(copyright)), ("fullName", Literal(fullName.value)), ("name", Literal(name.value))], []));
    var sdk := Dir("sdk", []);
    var fullNameSep := CreateUnderline(|fullName.value|, '=');
    assert fullNameSep == Underline(|fullName.value|, '=');
    sdk := AddChild(sdk, File("index.rst", "doc/sdk/index.rst.tmpl",
      [("fullName", Literal(fullName.value)), ("fullNameSep", Literal(fullNameSep)), ("name", Literal(name.value))], []));
    sdk := AddChild(sdk, File("README.html", "doc/sdk/README.html.tmpl",
      [("copyright", Literal(copyright)), ("fullName", Literal(fullName.value))], []));
    sdk := AddChild(sdk, File("overview.rst", "doc/sdk/overview.rst.tmpl", [], []));
    sdk := AddChild(sdk, File("installation.rst", "doc/sdk/installation.rst.tmpl", [("name", Literal(name.value))], []));
    sdk := AddChild(sdk, File("running.rst", "doc/sdk/running.rst.tmpl", [("name", Literal(name.value))], []));
    var configTitle := ConfigTitle(fullName.value, name.value);
    var configTitleSep := CreateUnderline(|configTitle|, '-');
    assert configTitleSep == Underline(|configTitle|, '-');
    sdk := AddChild(sdk, File("configuration.rst", "doc/sdk/configuration.rst.tmpl",
      [("fullName", Literal(fullName.value)), ("name", Literal(name.value)), ("configTitle", Literal(configTitle)),
       ("configTitleSep", Literal(configTitleSep))], []));
    sdk := AddChild(sdk, File("sampleconfig.rst", "doc/sdk/sampleconfig.rst.tmpl", [("fullName", Literal(fullName.value))], []));
    assert sdk == SdkDir(copyright, fullName.value, name.value);
    doc := AddChild(doc, sdk);
    assert doc == DocDirFrom(copyright, fullName.value, name.value);
    dict' := dict.(docDir := doc);
    return None, dict';
  }

  /** `_build_application_directory`: app.py's additional imports are left to be read when it is written. */
  method BuildApplicationDirectory(store: Store, dict: ComponentsDict) returns (err: Option<ConfigError>, dict': ComponentsDict)
    ensures var app := ApplicationSection(store);
            && (err.Some? <==> Name(app).Err? || AppClassName(store).Err? || FullName(app).Err?)
            && (err.Some? ==> err.value == if Name(app).Err? then Name(app).error
                                           else if AppClassName(store).Err? then AppClassName(store).error
                                           else FullName(app).error)
            && (err.None? ==>
                  var a := AppDirFrom(Name(app).value, AppClassName(store).value, FullName(app).value);
                  dict' == dict.(appName := a.name, appInit := a.init, appFile := a.appFile, appMain := a.main,
                                 appDirMore := []))
  {
    dict' := dict;
    var app := ApplicationSection(store);
    var name := Name(app);
    if name.Err? {
      return Some(name.error), dict';
    }
    var className := AppClassName(store);
    if className.Err? {
      return Some(className.error), dict';
    }
    var fullName := FullName(app);
    if fullName.Err? {
      return Some(fullName.error), dict';
    }
    var init := File("__init__.py", "app/__init__.py.tmpl",
      [("appClassName", Literal(className.value)), ("relPackage", Literal(".app"))], []);
    var appFile := File("app.py", "app/app.py.tmpl",
      [("appClassName", Literal(className.value)), ("name", Literal(name.value)), ("fullName", Literal(fullName.value)),
       (ImportsKey, Deferred(ImportsKey))], []);
    var main := File("__main__.py", "app/__main__.py.tmpl",
      [("appClassName", Literal(className.value)), ("name", Literal(name.value))], []);
    dict' := dict.(appName := name.value, appInit := init, appFile := appFile, appMain := main, appDirMore := []);
    return None, dict';
  }

  /** `_build_event_handlers` */
  method BuildEventHandlers(store: Store, dict: ComponentsDict) returns (err: Option<ConfigError>, dict': ComponentsDict)
    ensures var r := HandlersOf(store, EventHandlerNames(store));
            && (err.Some? <==> r.Err?)
            && (err.Some? ==> err.value == r.error)
            && (err.None? ==> dict' == WithEvents(dict, r.value))
  {
    dict' := dict;
    var listed := GetListProperty(ApplicationSection(store), "eventHandlers", Some([]), false);
    var names := listed.value;
    if |names| == 0 {
      AddChildrenNone(dict.appFile);
      AddChildrenNone(dict.basicSample);
      assert dict.appDirMore + [] == dict.appDirMore;
      return None, dict';
    }
    dict' := dict'.(hasEvents := true);
    var registrations, callbacks, sample;
    err, registrations, callbacks, sample := EventFragments(store, names, dict.basicSample);
    if err.Some? {
      return;
    }
    var def := Code(RegisterEventHandlersTemplate, [], 1, registrations);
    AddChildOne(dict.appFile, def);
    dict' := dict'.(basicSample := sample, appFile := AddChild(dict.appFile, def),
                    appDirMore := dict.appDirMore + [File(EventHandlersFileName, EventHandlersFileTemplate, [], callbacks)]);
  }

  /** `_build_services` */
  method BuildServices(store: Store, dict: ComponentsDict) returns (err: Option<ConfigError>, dict': ComponentsDict)
    ensures var r := ServicesOf(store, ServiceNames(store));
            && (err.Some? <==> r.Err?)
            && (err.Some? ==> err.value == r.error)
            && (err.None? ==> dict' == WithServices(dict, r.value))
  {
    dict' := dict;
    var listed := GetListProperty(ApplicationSection(store), "services", Some([]), false);
    var names := listed.value;
    if |names| == 0 {
      AddChildrenNone(dict.appFile);
      AddChildrenNone(dict.basicSample);
      assert dict.appDirMore + [] == dict.appDirMore;
      return None, dict';
    }
    dict' := dict'.(hasServices := true);
    var blocks, requestsFile, sample;
    err, blocks, requestsFile, sample := ServiceFragments(store, names, dict.basicSample);
    if err.Some? {
      return;
    }
    var def := Code(RegisterServicesTemplate, [], 1, blocks);
    AddChildOne(dict.appFile, def);
    var more := dict.appDirMore;
    if requestsFile.Some? {
      more := more + [requestsFile.value];
    } else {
      assert more + [] == more;
    }
    dict' := dict'.(basicSample := sample, appFile := AddChild(dict.appFile, def), appDirMore := more);
  }

  /**
   * The loop of `_build_event_handlers`: per declared handler, in order, a
   * registration, a callback and a sample fragment; the first handler that
   * cannot be read ends it with that handler's error.
   */
  method EventFragments(store: Store, names: seq<string>, sample: Component)
    returns (err: Option<ConfigError>, registrations: seq<Component>, callbacks: seq<Component>, outSample: Component)
    ensures err.Some? <==> HandlersOf(store, names).Err?
    ensures err.Some? ==> err.value == HandlersOf(store, names).error
    ensures err.None? ==>
              var hs := HandlersOf(store, names).value;
              && registrations == EachHandler(hs, EventRegistration)
              && callbacks == EachHandler(hs, EventCallback)
              && outSample == AddChildren(sample, EachHandler(hs, EventSample))
  {
    registrations, callbacks, outSample := [], [], sample;
    AddChildrenNone(sample);
    ghost var hs: seq<Handler> := [];
    var i := 0;
    while i < |names|
      invariant 0 <= i <= |names|
      invariant HandlersOf(store, names[..i]) == Ok(hs)
      invariant registrations == EachHandler(hs, EventRegistration)
      invariant callbacks == EachHandler(hs, EventCallback)
      invariant outSample == AddChildren(sample, EachHandler(hs, EventSample))
    {
      var h := HandlerOf(store, names[i]);
      HandlersOfStep(store, names, i, hs);
      if h.Err? {
        HandlersOfPrefix(store, names, i + 1);
        return Some(h.error), registrations, callbacks, outSample;
      }
      EachHandlerSnoc(hs, h.value, EventCallback);
      EachHandlerSnoc(hs, h.value, EventRegistration);
      EachHandlerSnoc(hs, h.value, EventSample);
      AddChildrenSnoc(sample, EachHandler(hs, EventSample), EventSample(h.value));
      callbacks := callbacks + [EventCallback(h.value)];
      registrations := registrations + [EventRegistration(h.value)];
      outSample := AddChild(outSample, EventSample(h.value));
      hs := hs + [h.value];
      i := i + 1;
    }
    assert names[..i] == names;
    return None, registrations, callbacks, outSample;
  }

  /**
   * The loops of `_build_services`: per service its create fragment, one
   * add-topic fragment per request handler and the register fragment; the
   * request-handler file is created at the first handler of any service and
   * gets one callback per handler.
   */
  method ServiceFragments(store: Store, names: seq<string>, sample: Component)
    returns (err: Option<ConfigError>, blocks: seq<Component>, requestsFile: Option<Component>, outSample: Component)
    ensures err.Some? <==> ServicesOf(store, names).Err?
    ensures err.Some? ==> err.value == ServicesOf(store, names).error
    ensures err.None? ==>
              var svcs := ServicesOf(store, names).value;
              && blocks == ServiceBlocks(svcs)
              && requestsFile == RequestsFileOf(AllHandlers(svcs))
              && outSample == AddChildren(sample, EachHandler(AllHandlers(svcs), RequestSample))
  {
    blocks, requestsFile, outSample := [], None, sample;
    AddChildrenNone(sample);
    ghost var svcs: seq<Service> := [];
    var i := 0;
    while i < |names|
      invariant 0 <= i <= |names|
      invariant ServicesOf(store, names[..i]) == Ok(svcs)
      invariant blocks == ServiceBlocks(svcs)
      invariant requestsFile == RequestsFileOf(AllHandlers(svcs))
      invariant outSample == AddChildren(sample, EachHandler(AllHandlers(svcs), RequestSample))
    {
      ghost var s;
      err, blocks, requestsFile, outSample, s := AddService(store, names[i], svcs, blocks, requestsFile, sample, outSample);
      ServicesOfStep(store, names, i, svcs);
      if err.Some? {
        ServicesOfPrefix(store, names, i + 1);
        return;
      }
      svcs := svcs + [s];
      i := i + 1;
    }
    assert names[..i] == names;
    err := None;
  }

  /** One service of `_build_services`: its create fragment, its request handlers, its register fragment. */
  method AddService(store: Store, service: string, ghost svcs: seq<Service>, blocks: seq<Component>,
                    requestsFile: Option<Component>, ghost sample: Component, outSample: Component)
    returns (err: Option<ConfigError>, blocks': seq<Component>, requestsFile': Option<Component>,
             outSample': Component, ghost s: Service)
    requires blocks == ServiceBlocks(svcs)
    requires requestsFile == RequestsFileOf(AllHandlers(svcs))
    requires outSample == AddChildren(sample, EachHandler(AllHandlers(svcs), RequestSample))
    ensures err.Some? <==> ServiceOf(store, service).Err?
    ensures err.Some? ==> err.value == ServiceOf(store, service).error
    ensures err.None? ==>
              && ServiceOf(store, service) == Ok(s)
              && blocks' == ServiceBlocks(svcs + [s])
              && requestsFile' == RequestsFileOf(AllHandlers(svcs + [s]))
              && outSample' == AddChildren(sample, EachHandler(AllHandlers(svcs + [s]), RequestSample))
  {
    blocks', requestsFile', outSample', s := blocks, requestsFile, outSample, Service(service, "", []);
    var serviceType := ServiceType(store, service);
    if serviceType.Err? {
      return Some(serviceType.error), blocks', requestsFile', outSample', s;
    }
    var handlerList := GetListProperty(Section(store, service), RequestHandlersKey, Some([]), false);
    var topics;
    ghost var hs: seq<Handler>;
    err, topics, requestsFile', outSample', hs :=
      RequestHandlerFragments(store, handlerList.value, AllHandlers(svcs), requestsFile, sample, outSample);
    if err.Some? {
      return;
    }
    s := Service(service, serviceType.value, hs);
    ServicesSnoc(svcs, s);
    blocks' := blocks + ([ServiceCreate(service, serviceType.value)] + topics + [ServiceRegister]);
  }

  /** The inner loop of `_build_services`, over one service's request handlers. */
  method RequestHandlerFragments(store: Store, names: seq<string>, ghost before: seq<Handler>,
                                 requestsFile0: Option<Component>, ghost sample: Component, sample0: Component)
    returns (err: Option<ConfigError>, topics: seq<Component>, requestsFile: Option<Component>,
             outSample: Component, ghost hs: seq<Handler>)
    requires requestsFile0 == RequestsFileOf(before)
    requires sample0 == AddChildren(sample, EachHandler(before, RequestSample))
    ensures err.Some? <==> HandlersOf(store, names).Err?
    ensures err.Some? ==> err.value == HandlersOf(store, names).error
    ensures err.None? ==>
              && HandlersOf(store, names) == Ok(hs)
              && topics == EachHandler(hs, ServiceAddTopic)
              && requestsFile == RequestsFileOf(before + hs)
              && outSample == AddChildren(sample, EachHandler(before + hs, RequestSample))
  {
    topics, requestsFile, outSample, hs := [], requestsFile0, sample0, [];
    assert before + hs == before;
    var j := 0;
    while j < |names|
      invariant 0 <= j <= |names|
      invariant HandlersOf(store, names[..j]) == Ok(hs)
      invariant topics == EachHandler(hs, ServiceAddTopic)
      invariant requestsFile == RequestsFileOf(before + hs)
      invariant outSample == AddChildren(sample, EachHandler(before + hs, RequestSample))
    {
      var h := HandlerOf(store, names[j]);
      HandlersOfStep(store, names, j, hs);
      if h.Err? {
        HandlersOfPrefix(store, names, j + 1);
        return Some(h.error), topics, requestsFile, outSample, hs;
      }
      topics, requestsFile, outSample := AddRequestHandler(h.value, before, hs, topics, requestsFile, sample, outSample);
      hs := hs + [h.value];
      j := j + 1;
    }
    assert names[..j] == names;
    return None, topics, requestsFile, outSample, hs;
  }

  /** One request handler: its add-topic fragment, its callback (creating the file at the first one), its sample. */
  method AddRequestHandler(h: Handler, ghost before: seq<Handler>, ghost hs: seq<Handler>, topics: seq<Component>,
                           requestsFile: Option<Component>, ghost sample: Component, outSample: Component)
    returns (topics': seq<Component>, requestsFile': Option<Component>, outSample': Component)
    requires topics == EachHandler(hs, ServiceAddTopic)
    requires requestsFile == RequestsFileOf(before + hs)
    requires outSample == AddChildren(sample, EachHandler(before + hs, RequestSample))
    ensures topics' == EachHandler(hs + [h], ServiceAddTopic)
    ensures requestsFile' == RequestsFileOf(before + (hs + [h]))
    ensures outSample' == AddChildren(sample, EachHandler(before + (hs + [h]), RequestSample))
  {
    RequestHandlerStep(before, hs, h, sample);
    requestsFile' := requestsFile;
    if requestsFile'.None? {
      requestsFile' := Some(File(RequestHandlersFileName, RequestHandlersFileTemplate, [], []));
    }
    requestsFile' := Some(AddChild(requestsFile'.value, RequestCallback(h)));
    topics' := topics + [ServiceAddTopic(h)];
    outSample' := AddChild(outSample, RequestSample(h));
  }

  /**
   * The result of `_get_root_component`: the root, and the dictionary's
   * final flags, which app.py's deferred imports read when it is written.
   */
  datatype AppTree = AppTree(root: Component, hasEvents: bool, hasServices: bool)

  /** The dictionary after the first five steps: the parts no handler step changes, app.py with no fragment yet. */
  function WithFixedParts(dict: ComponentsDict, s: AppSettings): ComponentsDict
  {
    var app := AppDirFrom(s.name, s.className, s.fullName);
    dict.(rootFiles := RootFilesFrom(s.fullName, s.name, s.copyright, s.installRequires),
          configDir := ConfigDirFrom(s.name, s.fullName),
          basicSample := BasicSample,
          docDir := DocDirFrom(s.copyright, s.fullName, s.name),
          appName := app.name, appInit := app.init, appFile := app.appFile, appMain := app.main,
          appDirMore := [])
  }

  /** The dictionary after a handler step has added its fragments. */
  function WithAdditions(dict: ComponentsDict, a: Additions): ComponentsDict
  {
    dict.(appFile := AddChildren(dict.appFile, a.appFile),
          appDirMore := dict.appDirMore + a.appDir,
          basicSample := AddChildren(dict.basicSample, a.sample))
  }

  function WithEvents(dict: ComponentsDict, hs: seq<Handler>): ComponentsDict
  {
    WithAdditions(dict, EventAdditions(hs)).(hasEvents := dict.hasEvents || hs != [])
  }

  function WithServices(dict: ComponentsDict, svcs: seq<Service>): ComponentsDict
  {
    WithAdditions(dict, ServiceAdditions(svcs)).(hasServices := dict.hasServices || svcs != [])
  }

  /** The tree and the flags a dictionary holds. */
  function TreeOf(dict: ComponentsDict): AppTree
  {
    AppTree(dict.Root(), dict.hasEvents, dict.hasServices)
  }

  /** The whole tree: the steps in order on a fresh dictionary, the first failing read deciding the error. */
  function AppTreeOf(store: Store): Result<AppTree, ConfigError>
  {
    var s :- AppSettingsOf(store);
    var evs :- HandlersOf(store, EventHandlerNames(store));
    var svcs :- ServicesOf(store, ServiceNames(store));
    Ok(TreeOf(WithServices(WithEvents(WithFixedParts(NewDict, s), evs), svcs)))
  }

  /** `_get_root_component`: the seven steps on a fresh dictionary, the first error ending the build. */
  method GetRootComponent(store: Store) returns (r: Result<AppTree, ConfigError>)
    ensures r == AppTreeOf(store)
  {
    var err, d := BuildFixedParts(store, NewDict);
    if err.Some? {
      return Err(err.value);
    }
    err, d := BuildEventHandlers(store, d);
    if err.Some? {
      return Err(err.value);
    }
    err, d := BuildServices(store, d);
    if err.Some? {
      return Err(err.value);
    }
    return Ok(TreeOf(d));
  }

  /** The first five steps of `_get_root_component`. */
  method BuildFixedParts(store: Store, dict: ComponentsDict) returns (err: Option<ConfigError>, d: ComponentsDict)
    ensures err.Some? <==> AppSettingsOf(store).Err?
    ensures err.Some? ==> err.value == AppSettingsOf(store).error
    ensures err.None? ==> d == WithFixedParts(dict, AppSettingsOf(store).value)
  {
    err, d := BuildRootDirectory(store, dict);
    if err.Some? {
      return;
    }
    err, d := BuildConfigDirectory(store, d);
    if err.Some? {
      return;
    }
    d := BuildSampleDirectory(d);
    err, d := BuildDocsDirectory(store, d);
    if err.Some? {
      return;
    }
    err, d := BuildApplicationDirectory(store, d);
  }

  /** `requests_file_comp`: None until the first request handler, then the file with one callback per handler. */
  function RequestsFileOf(hs: seq<Handler>): Option<Component>
  {
    if hs == [] then None else Some(RequestsFile(hs))
  }

  lemma RequestsFileSnoc(hs: seq<Handler>, h: Handler)
    ensures RequestsFileOf(hs + [h]) ==
            Some(AddChild(if hs == [] then File(RequestHandlersFileName, RequestHandlersFileTemplate, [], [])
                          else RequestsFile(hs), RequestCallback(h)))
  {
    EachHandlerSnoc(hs, h, RequestCallback);
  }

  /** What one more request handler adds to the request-handler file, the topics and the sample. */
  lemma RequestHandlerStep(before: seq<Handler>, hs: seq<Handler>, h: Handler, sample: Component)
    ensures RequestsFileOf(before + (hs + [h])) ==
            Some(AddChild(if before + hs == [] then File(RequestHandlersFileName, RequestHandlersFileTemplate, [], [])
                          else RequestsFile(before + hs), RequestCallback(h)))
    ensures EachHandler(hs + [h], ServiceAddTopic) == EachHandler(hs, ServiceAddTopic) + [ServiceAddTopic(h)]
    ensures AddChildren(sample, EachHandler(before + (hs + [h]), RequestSample))
            == AddChild(AddChildren(sample, EachHandler(before + hs, RequestSample)), RequestSample(h))
  {
    assert before + hs + [h] == before + (hs + [h]);
    RequestsFileSnoc(before + hs, h);
    EachHandlerSnoc(hs, h, ServiceAddTopic);
    EachHandlerSnoc(before + hs, h, RequestSample);
    AddChildrenSnoc(sample, EachHandler(before + hs, RequestSample), RequestSample(h));
  }

  lemma EachHandlerSnoc(hs: seq<Handler>, h: Handler, f: Handler -> Component)
    ensures EachHandler(hs + [h], f) == EachHandler(hs, f) + [f(h)]
  {
  }

  lemma ServicesSnoc(svcs: seq<Service>, s: Service)
    ensures AllHandlers(svcs + [s]) == AllHandlers(svcs) + s.handlers
    ensures ServiceBlocks(svcs + [s]) == ServiceBlocks(svcs) + ServiceBlock(s)
  {
    assert (svcs + [s])[..|svcs|] == svcs;
  }

  /** Reading one more name extends the prefix's handlers, or fails with that name's error. */
  lemma HandlersOfStep(store: Store, names: seq<string>, i: nat, hs: seq<Handler>)
    requires i < |names| && HandlersOf(store, names[..i]) == Ok(hs)
    ensures HandlersOf(store, names[..i + 1]) ==
            if HandlerOf(store, names[i]).Err? then Err(HandlerOf(store, names[i]).error)
            else Ok(hs + [HandlerOf(store, names[i]).value])
  {
    assert names[..i + 1][..i] == names[..i];
  }

  lemma ServicesOfStep(store: Store, names: seq<string>, i: nat, svcs: seq<Service>)
    requires i < |names| && ServicesOf(store, names[..i]) == Ok(svcs)
    ensures ServicesOf(store, names[..i + 1]) ==
            if ServiceOf(store, names[i]).Err? then Err(ServiceOf(store, names[i]).error)
            else Ok(svcs + [ServiceOf(store, names[i]).value])
  {
    assert names[..i + 1][..i] == names[..i];
  }

  /** Once a prefix of the names fails, the whole list fails with the same error. */
  lemma {:induction false} HandlersOfPrefix(store: Store, names: seq<string>, j: nat)
    requires j <= |names|
    ensures HandlersOf(store, names[..j]).Err? ==> HandlersOf(store, names) == HandlersOf(store, names[..j])
    decreases |names| - j
  {
    if j == |names| {
      assert names[..j] == names;
    } else if HandlersOf(store, names[..j]).Err? {
      assert names[..j + 1][..j] == names[..j];
      HandlersOfPrefix(store, names, j + 1);
    }
  }

  lemma {:induction false} ServicesOfPrefix(store: Store, names: seq<string>, j: nat)
    requires j <= |names|
    ensures ServicesOf(store, names[..j]).Err? ==> ServicesOf(store, names) == ServicesOf(store, names[..j])
    decreases |names| - j
  {
    if j == |names| {
      assert names[..j] == names;
    } else if ServicesOf(store, names[..j]).Err? {
      assert names[..j + 1][..j] == names[..j];
      ServicesOfPrefix(store, names, j + 1);
    }
  }
}
