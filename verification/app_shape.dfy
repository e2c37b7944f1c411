/**
 * What the application template's tree looks like, stated over the
 * handler and service lists the configuration declares: which files and
 * fragments appear, how many, in which order, and which error a missing
 * option gives.
 */
module AppShape {
  import opened Wrappers
  import opened Config
  import opened Resources
  import opened Components
  import opened AppTemplate

  /** The dictionary `_get_root_component` ends with when every read succeeds. */
  function FinalDict(s: AppSettings, evs: seq<Handler>, svcs: seq<Service>): ComponentsDict
  {
    Handled(WithFixedParts(NewDict, s), evs, svcs)
  }

  /** A dictionary after the two handler steps. */
  function Handled(d0: ComponentsDict, evs: seq<Handler>, svcs: seq<Service>): ComponentsDict
  {
    WithServices(WithEvents(d0, evs), svcs)
  }

  /**
   * The dictionary as the fixed steps leave it: both flags False, app.py,
   * the basic sample and the rest of the application directory without
   * children, and the application directory's three files named as the
   * source names them.
   */
  predicate Fresh(d: ComponentsDict)
  {
    && !d.hasEvents && !d.hasServices
    && d.appFile.File? && d.appFile.children == [] && d.basicSample.children == [] && d.appDirMore == []
    && EntryName(d.appInit) == "__init__.py" && EntryName(d.appFile) == "app.py" && EntryName(d.appMain) == "__main__.py"
  }

  /** The five fixed steps leave a fresh dictionary. */
  lemma FixedPartsFresh(s: AppSettings)
    ensures Fresh(WithFixedParts(NewDict, s))
  {
  }

  /** How many of the components create an entry called `n`. */
  function CountNamed(cs: seq<Component>, n: string): nat
  {
    if cs == [] then 0 else CountNamed(cs[..|cs| - 1], n) + (if EntryName(cs[|cs| - 1]) == n then 1 else 0)
  }

  /** The register-event-handlers definition app.py gets. */
  function EventsDef(evs: seq<Handler>): Component
  {
    Code(RegisterEventHandlersTemplate, [], 1, EachHandler(evs, EventRegistration))
  }

  /** The register-services definition app.py gets. */
  function ServicesDef(svcs: seq<Service>): Component
  {
    Code(RegisterServicesTemplate, [], 1, ServiceBlocks(svcs))
  }

  // ---------------------------------------------------------------------
  // From the configuration to the final dictionary

  /**
   * A successful build is the final dictionary of the settings, the event
   * handlers and the services the configuration declares, one handler per
   * declared event handler and one service per declared service.
   */
  lemma AppTreeParts(store: Store)
    requires AppTreeOf(store).Ok?
    ensures AppSettingsOf(store).Ok?
    ensures HandlersOf(store, EventHandlerNames(store)).Ok?
    ensures ServicesOf(store, ServiceNames(store)).Ok?
    ensures var evs := HandlersOf(store, EventHandlerNames(store)).value;
            var svcs := ServicesOf(store, ServiceNames(store)).value;
            && |evs| == |EventHandlerNames(store)| && |svcs| == |ServiceNames(store)|
            && AppTreeOf(store).value == TreeOf(FinalDict(AppSettingsOf(store).value, evs, svcs))
  {
  }

  /**
   * The build fails with a NoOptionError naming the first option missing
   * from the `Application` section, in the order the steps read them:
   * `fullName`, then `name`, then `appClassName`.
   */
  lemma FirstMissingOption(store: Store)
    ensures var app := ApplicationSection(store);
            && (!app.Has("fullName") ==> AppTreeOf(store) == Err(Missing("fullName", "Application")))
            && (app.Has("fullName") && !app.Has("name") ==> AppTreeOf(store) == Err(Missing("name", "Application")))
            && (app.Has("fullName") && app.Has("name") && !app.Has("appClassName") ==>
                  AppTreeOf(store) == Err(Missing("appClassName", "Application")))
  {
    var app := ApplicationSection(store);
    PropertyRules(app, "fullName", None, true);
    PropertyRules(app, "name", None, true);
    PropertyRules(app, "appClassName", None, true);
  }

  /**
   * With the application settings readable, the first event handler whose
   * section cannot be read decides the error, before any service is read.
   */
  lemma EventErrorsFirst(store: Store)
    ensures AppSettingsOf(store).Ok? && HandlersOf(store, EventHandlerNames(store)).Err? ==>
              AppTreeOf(store) == Err(HandlersOf(store, EventHandlerNames(store)).error)
  {
  }

  // ---------------------------------------------------------------------
  // Events

  /**
   * Events appear exactly when handlers are declared: the flag, the
   * `eventhandlers.py` file (at most once) and the registration
   * definition in app.py.
   */
  lemma {:induction false} EventsPresence(d0: ComponentsDict, evs: seq<Handler>, svcs: seq<Service>)
    requires Fresh(d0)
    ensures var d := Handled(d0, evs, svcs);
            && (d.hasEvents <==> evs != [])
            && CountNamed(d.AppDir().children, EventHandlersFileName) == (if evs == [] then 0 else 1)
            && (EventsDef(evs) in d.appFile.children <==> evs != [])
  {
    var d := Handled(d0, evs, svcs);
    AppFileChildren(d0, evs, svcs);
    AppDirChildren(d0, evs, svcs);
    var hs := AllHandlers(svcs);
    var evFile := if evs == [] then [] else [File(EventHandlersFileName, EventHandlersFileTemplate, [], EachHandler(evs, EventCallback))];
    var reqFile := if hs == [] then [] else [RequestsFile(hs)];
    CountAfterFixed(d.appInit, d.appFile, d.appMain, evFile, reqFile, EventHandlersFileName);
    if evs != [] {
      assert EventsDef(evs) == d.appFile.children[0];
    } else {
      assert EventsDef(evs) != ServicesDef(svcs);
    }
  }

  /**
   * One registration, one callback and one sample fragment per declared
   * handler, in declaration order; registrations and samples at indent 1.
   */
  lemma EventFragmentsInOrder(d0: ComponentsDict, evs: seq<Handler>, svcs: seq<Service>)
    requires Fresh(d0)
    requires evs != []
    ensures var d := Handled(d0, evs, svcs);
            && d.appFile.children[0] == EventsDef(evs)
            && d.AppDir().children[3] == File(EventHandlersFileName, EventHandlersFileTemplate, [], EachHandler(evs, EventCallback))
            && d.basicSample.children[..|evs|] == EachHandler(evs, EventSample)
  {
    AppFileChildren(d0, evs, svcs);
    AppDirChildren(d0, evs, svcs);
    SampleChildren(d0, evs, svcs);
  }

  /** The i-th registration, callback and sample fragment are the i-th handler's; registrations and samples sit at indent 1. */
  lemma EventFragmentsIndexed(evs: seq<Handler>)
    ensures |EventsDef(evs).children| == |evs|
    ensures forall i :: 0 <= i < |evs| ==>
              && EventsDef(evs).children[i] == EventRegistration(evs[i]) && EventRegistration(evs[i]).indent == 1
              && EachHandler(evs, EventSample)[i] == EventSample(evs[i]) && EventSample(evs[i]).indent == 1
              && EachHandler(evs, EventCallback)[i] == EventCallback(evs[i])
  {
  }

  // ---------------------------------------------------------------------
  // Services

  /**
   * `requesthandlers.py` appears at most once, and exactly when some
   * service declares a request handler; it holds one callback per request
   * handler, services in order.
   */
  lemma {:induction false} RequestsFilePresence(d0: ComponentsDict, evs: seq<Handler>, svcs: seq<Service>)
    requires Fresh(d0)
    ensures var d := Handled(d0, evs, svcs);
            && CountNamed(d.AppDir().children, RequestHandlersFileName)
               == (if exists k :: 0 <= k < |svcs| && svcs[k].handlers != [] then 1 else 0)
            && (d.hasServices <==> svcs != [])
            && (ServicesDef(svcs) in d.appFile.children <==> svcs != [])
  {
    var d := Handled(d0, evs, svcs);
    AppFileChildren(d0, evs, svcs);
    AppDirChildren(d0, evs, svcs);
    AllHandlersEmpty(svcs);
    var hs := AllHandlers(svcs);
    var evFile := if evs == [] then [] else [File(EventHandlersFileName, EventHandlersFileTemplate, [], EachHandler(evs, EventCallback))];
    var reqFile := if hs == [] then [] else [RequestsFile(hs)];
    CountAfterFixed(d.appInit, d.appFile, d.appMain, evFile, reqFile, RequestHandlersFileName);
    if svcs != [] {
      assert ServicesDef(svcs) == d.appFile.children[|d.appFile.children| - 1];
    } else {
      assert EventsDef(evs) != ServicesDef(svcs);
    }
  }

  /** The request handlers of the services are empty exactly when every service declares none. */
  lemma {:induction false} AllHandlersEmpty(svcs: seq<Service>)
    ensures AllHandlers(svcs) == [] <==> forall k :: 0 <= k < |svcs| ==> svcs[k].handlers == []
  {
    if svcs != [] {
      var init := svcs[..|svcs| - 1];
      AllHandlersEmpty(init);
      if AllHandlers(svcs) == [] {
        forall k | 0 <= k < |svcs|
          ensures svcs[k].handlers == []
        {
          if k < |svcs| - 1 {
            assert svcs[k] == init[k];
          }
        }
      } else if AllHandlers(init) != [] {
        var k :| 0 <= k < |init| && init[k].handlers != [];
        assert svcs[k] == init[k];
      }
    }
  }

  /**
   * Per service, in order: its create fragment, one add-topic fragment per
   * request handler, its register fragment; so the definition holds two
   * fragments per service and one per request handler, all at indent 1.
   */
  lemma {:induction false} ServiceBlocksShape(svcs: seq<Service>)
    ensures |ServiceBlocks(svcs)| == 2 * |svcs| + |AllHandlers(svcs)|
    ensures forall i :: 0 <= i < |ServiceBlocks(svcs)| ==>
              ServiceBlocks(svcs)[i].Code? && ServiceBlocks(svcs)[i].indent == 1
  {
    if svcs != [] {
      var init, last := svcs[..|svcs| - 1], svcs[|svcs| - 1];
      ServiceBlocksShape(init);
      ServiceBlockShape(last);
      var a: seq<Component>, b: seq<Component> := ServiceBlocks(init), ServiceBlock(last);
      forall i | 0 <= i < |a + b|
        ensures (a + b)[i].Code? && (a + b)[i].indent == 1
      {
        if i < |a| {
          assert (a + b)[i] == a[i];
          assert a[i].Code? && a[i].indent == 1;
        } else {
          assert (a + b)[i] == b[i - |a|];
          assert b[i - |a|].Code? && b[i - |a|].indent == 1;
        }
      }
    }
  }

  /** One service's fragments: create first, register last, the add-topics in between in handler order. */
  lemma ServiceBlockShape(s: Service)
    ensures var b := ServiceBlock(s);
            && |b| == |s.handlers| + 2
            && b[0] == ServiceCreate(s.name, s.serviceType)
            && b[|b| - 1] == ServiceRegister
            && (forall i :: 0 <= i < |s.handlers| ==> b[i + 1] == ServiceAddTopic(s.handlers[i]))
            && (forall i :: 0 <= i < |b| ==> b[i].Code? && b[i].indent == 1)
  {
    var b := ServiceBlock(s);
    var topics := EachHandler(s.handlers, ServiceAddTopic);
    assert b == [ServiceCreate(s.name, s.serviceType)] + topics + [ServiceRegister];
    forall i | 0 <= i < |b|
      ensures b[i].Code? && b[i].indent == 1
    {
      if 0 < i < |b| - 1 {
        assert b[i] == topics[i - 1];
      }
    }
  }

  // ---------------------------------------------------------------------
  // The pieces of the final dictionary

  /** app.py's definitions: the event one when there are events, then the services one when there are services. */
  lemma AppFileChildren(d0: ComponentsDict, evs: seq<Handler>, svcs: seq<Service>)
    requires Fresh(d0)
    ensures Handled(d0, evs, svcs).appFile.children
            == (if evs == [] then [] else [EventsDef(evs)]) + (if svcs == [] then [] else [ServicesDef(svcs)])
  {
  }

  /**
   * The application directory: `__init__.py`, `app.py`, `__main__.py`,
   * then `eventhandlers.py` when there are events, then
   * `requesthandlers.py` when there are request handlers.
   */
  lemma AppDirChildren(d0: ComponentsDict, evs: seq<Handler>, svcs: seq<Service>)
    requires Fresh(d0)
    ensures var d := Handled(d0, evs, svcs);
            var hs := AllHandlers(svcs);
            && d.AppDir() == Dir(d0.appName, [d.appInit, d.appFile, d.appMain]
                                         + (if evs == [] then [] else [File(EventHandlersFileName, EventHandlersFileTemplate, [], EachHandler(evs, EventCallback))])
                                         + (if hs == [] then [] else [RequestsFile(hs)]))
            && EntryName(d.appInit) == "__init__.py" && EntryName(d.appFile) == "app.py"
            && EntryName(d.appMain) == "__main__.py"
  {
  }

  /** The basic sample: one event fragment per event handler, then one request fragment per request handler. */
  lemma SampleChildren(d0: ComponentsDict, evs: seq<Handler>, svcs: seq<Service>)
    requires Fresh(d0)
    ensures Handled(d0, evs, svcs).basicSample.children
            == EachHandler(evs, EventSample) + EachHandler(AllHandlers(svcs), RequestSample)
  {
  }

  lemma CountNamedOne(c: Component, n: string)
    ensures CountNamed([c], n) == if EntryName(c) == n then 1 else 0
  {
    assert [c][..0] == [];
  }

  /**
   * After the three fixed files of the application directory, a name
   * none of them has is counted only in the optional files that follow.
   */
  lemma CountAfterFixed(a: Component, b: Component, c: Component, ev: seq<Component>, rq: seq<Component>, n: string)
    requires EntryName(a) == "__init__.py" && EntryName(b) == "app.py" && EntryName(c) == "__main__.py"
    requires n != "__init__.py" && n != "app.py" && n != "__main__.py"
    requires |ev| <= 1 && |rq| <= 1
    ensures CountNamed([a, b, c] + ev + rq, n)
            == (if ev != [] && EntryName(ev[0]) == n then 1 else 0) + (if rq != [] && EntryName(rq[0]) == n then 1 else 0)
  {
    var fixed := [a, b, c];
    CountNamedAppend(fixed + ev, rq, n);
    CountNamedAppend(fixed, ev, n);
    assert fixed[..2] == [a, b];
    assert fixed[..2][..1] == [a];
    CountNamedOne(a, n);
    if ev != [] {
      CountNamedOne(ev[0], n);
      assert ev == [ev[0]];
    }
    if rq != [] {
      CountNamedOne(rq[0], n);
      assert rq == [rq[0]];
    }
  }

  lemma {:induction false} CountNamedAppend(a: seq<Component>, b: seq<Component>, n: string)
    ensures CountNamed(a + b, n) == CountNamed(a, n) + CountNamed(b, n)
    decreases |b|
  {
    if b == [] {
      assert a + b == a;
    } else {
      var init := b[..|b| - 1];
      CountNamedAppend(a, init, n);
      assert (a + b)[..|a + b| - 1] == a + init;
    }
  }

  // ---------------------------------------------------------------------
  // Root and imports

  /** The root: the eight files, then the config, sample, doc and application directories. */
  lemma RootNames(s: AppSettings, evs: seq<Handler>, svcs: seq<Service>)
    ensures Names(FinalDict(s, evs, svcs).Root().children)
            == ["README", "README.md", "setup.py", "LICENSE", "MANIFEST.in", "dist.py", "clean.py", "Dockerfile",
                "config", "sample", "doc", s.name]
  {
    var d0 := WithFixedParts(NewDict, s);
    FixedPartsFresh(s);
    HandledKeepsFixed(d0, evs, svcs);
    RootFileNames(s.fullName, s.name, s.copyright, s.installRequires);
    RootNamesOf(FinalDict(s, evs, svcs));
  }

  /** The handler steps leave the root files, the config and doc directories and the application's name alone. */
  lemma HandledKeepsFixed(d0: ComponentsDict, evs: seq<Handler>, svcs: seq<Service>)
    ensures var d := Handled(d0, evs, svcs);
            d.rootFiles == d0.rootFiles && d.configDir == d0.configDir && d.docDir == d0.docDir && d.appName == d0.appName
  {
  }

  /** The root's entries are the root files' names, then the three directories and the application directory. */
  lemma RootNamesOf(d: ComponentsDict)
    requires Names(d.rootFiles)
             == ["README", "README.md", "setup.py", "LICENSE", "MANIFEST.in", "dist.py", "clean.py", "Dockerfile"]
    requires EntryName(d.configDir) == "config" && EntryName(d.docDir) == "doc"
    ensures Names(d.Root().children) == Names(d.rootFiles) + ["config", "sample", "doc", d.appName]
  {
    var rest := [d.configDir, SampleDir(d.basicSample), d.docDir, d.AppDir()];
    assert d.Root().children == d.rootFiles + rest;
    assert Names(rest) == ["config", "sample", "doc", d.appName];
  }

  lemma RootFileNames(fullName: string, name: string, copyright: string, reqs: seq<string>)
    ensures Names(RootFilesFrom(fullName, name, copyright, reqs))
            == ["README", "README.md", "setup.py", "LICENSE", "MANIFEST.in", "dist.py", "clean.py", "Dockerfile"]
  {
  }

  /**
   * app.py's imports are deferred: its replacement dictionary holds the
   * deferred key whatever the handler steps add, and the resolver built
   * from the final flags gives the imports for events exactly when event
   * handlers are declared and for services exactly when services are.
   */
  lemma ImportsSeeFinalFlags(d0: ComponentsDict, evs: seq<Handler>, svcs: seq<Service>)
    requires Fresh(d0)
    ensures var d := Handled(d0, evs, svcs);
            && d.appFile.replacements == d0.appFile.replacements
            && ImportsResolver(d.hasEvents, d.hasServices)(ImportsKey) == AdditionalImports(evs != [], svcs != [])
  {
  }

  /** The application file the fixed steps create holds the deferred imports. */
  lemma AppFileDefersImports(s: AppSettings)
    ensures Lookup(WithFixedParts(NewDict, s).appFile.replacements, ImportsKey) == Some(Deferred(ImportsKey))
  {
    var reps := WithFixedParts(NewDict, s).appFile.replacements;
    assert reps == [("appClassName", Literal(s.className)), ("name", Literal(s.name)), ("fullName", Literal(s.fullName)),
                    (ImportsKey, Deferred(ImportsKey))];
    assert Lookup(reps, ImportsKey) == Lookup(reps[1..], ImportsKey);
    assert Lookup(reps[1..], ImportsKey) == Lookup(reps[1..][1..], ImportsKey);
    assert Lookup(reps[1..][1..], ImportsKey) == Lookup(reps[1..][1..][1..], ImportsKey);
    assert reps[1..][1..][1..] == [(ImportsKey, Deferred(ImportsKey))];
  }
}
