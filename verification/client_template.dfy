/**
 * The client template: the `Client` section it reads and the component
 * tree it builds from it (the root files, the client package, the sample
 * and the SDK documentation).
 *
 * The steps share a dictionary holding the root directory and the client
 * directory. Each step attaches a directory to the root; the source
 * attaches it before filling it, the model attaches it once complete,
 * which gives the same tree because nothing is executed while the tree is
 * built. Resource names are kept as the source writes them (several reach
 * into the application template's resources with `../../app/static/`).
 */
module ClientTemplate {
  import opened Wrappers
  import opened Config
  import opened Resources
  import opened Components
  import opened TemplateHelpers

  const TemplateName := "client-template"

  // ---------------------------------------------------------------------
  // ClientTemplateConfig.client_section

  function ClientSection(store: Store): Section
  {
    Section(store, "Client")
  }

  /** `client_class_name`: required. */
  function ClientClassName(store: Store): Result<string, ConfigError>
  {
    RequiredProperty(ClientSection(store), "clientClassName")
  }

  /** `include_example_method`: a boolean, True when absent. */
  function IncludeExampleMethod(store: Store): Result<bool, ConfigError>
  {
    var b :- GetBooleanProperty(ClientSection(store), "includeExampleMethod", Some(true), false);
    Ok(b.value)
  }

  const ClientImplicitRequires: seq<string> := ["dxlbootstrap", "dxlclient"]

  /** `install_requires` of the client section: the declared packages, then the two the template always needs. */
  function ClientInstallRequires(store: Store): (r: seq<string>)
    ensures |r| >= 2 && r[|r| - 2..] == ["dxlbootstrap", "dxlclient"]
    ensures var sec := ClientSection(store);
            r[..|r| - 2] == (if sec.Has("installRequires") then ListItems(sec.Get("installRequires")) else [])
  {
    InstallRequires(ClientSection(store), ClientImplicitRequires)
  }

  /**
   * `clientClassName` is required: reading it fails, naming the option and
   * the section, exactly when it is absent. `includeExampleMethod` is True
   * when absent; a present value is parsed as a boolean word, and a value
   * that is not one is an error.
   */
  lemma ClientOptionRules(store: Store)
    ensures var sec := ClientSection(store);
            && (ClientClassName(store).Ok? <==> sec.Has("clientClassName"))
            && (sec.Has("clientClassName") ==> ClientClassName(store).value == sec.Get("clientClassName"))
            && (!sec.Has("clientClassName") ==> ClientClassName(store) == Err(Missing("clientClassName", "Client")))
            && (!sec.Has("includeExampleMethod") ==> IncludeExampleMethod(store) == Ok(true))
            && (sec.Has("includeExampleMethod") && ParseBoolean(sec.Get("includeExampleMethod")).Some? ==>
                  IncludeExampleMethod(store) == Ok(ParseBoolean(sec.Get("includeExampleMethod")).value))
            && (sec.Has("includeExampleMethod") && ParseBoolean(sec.Get("includeExampleMethod")).None? ==>
                  IncludeExampleMethod(store) == Err(NotABoolean(sec.Get("includeExampleMethod"))))
  {
    PropertyRules(ClientSection(store), "clientClassName", None, true);
  }

  // ---------------------------------------------------------------------
  // The pieces of the tree

  /** What the four steps read from the `Client` section, in the order the first failing read is met. */
  datatype ClientSettings = ClientSettings(fullName: string, name: string, className: string,
                                           includeExample: bool, copyright: string, installRequires: seq<string>)

  function ClientSettingsOf(store: Store): Result<ClientSettings, ConfigError>
  {
    var sec := ClientSection(store);
    var fullName :- FullName(sec);
    var name :- Name(sec);
    var className :- ClientClassName(store);
    var example :- IncludeExampleMethod(store);
    Ok(ClientSettings(fullName, name, className, example, Copyright(sec), ClientInstallRequires(store)))
  }

  /** The seven files at the root of the generated tree, in the order they are attached. */
  function RootFilesFrom(fullName: string, name: string, copyright: string, reqs: seq<string>): seq<Component>
  {
    [File("README", "../../app/static/README.tmpl",
          [("fullName", Literal(fullName)), ("fullNameSep", Literal(Underline(|fullName|, '='))),
           ("copyright", Literal(copyright))], []),
     File("README.md", "../../app/static/README.md.tmpl",
          [("fullName", Literal(fullName)), ("copyright", Literal(copyright))], []),
     File("setup.py", "../../app/static/setup.py.tmpl",
          [("name", Literal(name)), ("installRequires", Literal(InstallRequiresText(reqs)))], []),
     File("LICENSE", "../../app/static/LICENSE.tmpl", [], []),
     File("MANIFEST.in", "../../app/static/MANIFEST.in.tmpl", [], []),
     File("dist.py", "dist.py.tmpl", [("name", Literal(name))], []),
     File("clean.py", "../../app/static/clean.py.tmpl", [("name", Literal(name))], [])]
  }

  const ImportsKey := "additionalImports"
  const ClientExampleImports := "from dxlclient.message import Request\nfrom dxlbootstrap.util import MessageUtils\n"
  const SampleExampleImports := "from dxlbootstrap.util import MessageUtils\n"
  const ExampleMethodTemplate := "client/code/example_method.code.tmpl"
  const InvokeExampleMethodTemplate := "sample/basic/code/invoke_example_method.code.tmpl"

  /** The fragment that shows a wrapped service invocation, one level in. */
  const ExampleMethod := Code(ExampleMethodTemplate, [], 1, [])
  const InvokeExampleMethod := Code(InvokeExampleMethodTemplate, [], 1, [])

  /** `client.py`: the example method as its one child when it is included. */
  function ClientFile(className: string, fullName: string, withExample: bool): Component
  {
    File("client.py", "client/client.py.tmpl",
         [("clientClassName", Literal(className)), ("fullName", Literal(fullName)),
          (ImportsKey, Literal(if withExample then ClientExampleImports else ""))],
         if withExample then [ExampleMethod] else [])
  }

  /** The client package: `__init__.py`, then `client.py`. */
  function ClientDirFrom(name: string, className: string, fullName: string, withExample: bool): Component
  {
    Dir(name, [File("__init__.py", "../../app/static/app/__init__.py.tmpl",
                    [("appClassName", Literal(className)), ("relPackage", Literal(".client"))], []),
               ClientFile(className, fullName, withExample)])
  }

  /** `basic_sample.py`: the invocation of the example method as its one child when it is included. */
  function BasicSampleFile(className: string, name: string, withExample: bool): Component
  {
    File("basic_sample.py", "sample/basic/basic_sample.py.tmpl",
         [("clientClassName", Literal(className)), ("name", Literal(name)),
          (ImportsKey, Literal(if withExample then SampleExampleImports else ""))],
         if withExample then [InvokeExampleMethod] else [])
  }

  /** The sample directory: the client configuration and its `.dist` copy, `common.py`, then `basic/`. */
  function SampleDirFrom(className: string, name: string, withExample: bool): Component
  {
    Dir("sample", [File("dxlclient.config", "../../app/static/config/dxlclient.config.tmpl", [], []),
                   File("dxlclient.config.dist", "../../app/static/config/dxlclient.config.tmpl", [], []),
                   File("common.py", "../../app/static/sample/common.py.tmpl", [], []),
                   Dir("basic", [BasicSampleFile(className, name, withExample)])])
  }

  /** The doc directory: `conf.py`, then the SDK documentation. */
  function DocDirFrom(copyright: string, fullName: string, name: string): Component
  {
    Dir("doc", [File("conf.py", "../../app/static/doc/conf.py.tmpl",
                     [("copyright", Literal(copyright)), ("fullName", Literal(fullName)), ("name", Literal(name))], []),
                SdkDir(copyright, fullName, name)])
  }

  function SdkDir(copyright: string, fullName: string, name: string): Component
  {
    Dir("sdk", [
      File("index.rst", "doc/sdk/index.rst.tmpl",
           [("fullName", Literal(fullName)), ("fullNameSep", Literal(Underline(|fullName|, '='))),
            ("name", Literal(name))], []),
      File("README.html", "../../app/static/doc/sdk/README.html.tmpl",
           [("copyright", Literal(copyright)), ("fullName", Literal(fullName))], []),
      File("overview.rst", "../../app/static/doc/sdk/overview.rst.tmpl", [], []),
      File("installation.rst", "doc/sdk/installation.rst.tmpl", [("name", Literal(name))], []),
      File("sampleconfig.rst", "../../app/static/doc/sdk/sampleconfig.rst.tmpl", [("fullName", Literal(fullName))], [])])
  }

  /** The tree of a successful build: the root files, then the client, sample and doc directories. */
  function ClientRootOf(s: ClientSettings): Component
  {
    Dir("", RootFilesFrom(s.fullName, s.name, s.copyright, s.installRequires)
            + [ClientDirFrom(s.name, s.className, s.fullName, s.includeExample),
               SampleDirFrom(s.className, s.name, s.includeExample),
               DocDirFrom(s.copyright, s.fullName, s.name)])
  }

  /** The whole build: the settings, or the error of the first option that cannot be read. */
  function ClientTreeOf(store: Store): Result<Component, ConfigError>
  {
    var s :- ClientSettingsOf(store);
    Ok(ClientRootOf(s))
  }

  // ---------------------------------------------------------------------
  // The components dictionary and the build steps

  /** `components_dict`: the root directory and the client directory attached to it. */
  datatype ComponentsDict = ComponentsDict(root: Component, clientDir: Component)

  const NewDict := ComponentsDict(Generic([]), Generic([]))

  /** `_build_root_directory`: the root, holding the seven root files attached one by one. */
  method BuildRootDirectory(store: Store, dict: ComponentsDict) returns (err: Option<ConfigError>, dict': ComponentsDict)
    ensures var sec := ClientSection(store);
            && (err.Some? <==> FullName(sec).Err? || Name(sec).Err?)
            && (err.Some? ==> err.value == if FullName(sec).Err? then FullName(sec).error else Name(sec).error)
            && (err.None? ==>
                  dict' == dict.(root := Dir("", RootFilesFrom(FullName(sec).value, Name(sec).value, Copyright(sec),
                                                               ClientInstallRequires(store)))))
  {
    dict' := dict;
    var sec := ClientSection(store);
    var root := Dir("", []);
    var fullName := FullName(sec);
    if fullName.Err? {
      return Some(fullName.error), dict';
    }
    var fullNameSep := CreateUnderline(|fullName.value|, '=');
    assert fullNameSep == Underline(|fullName.value|, '=');
    var copyright := Copyright(sec);
    var readme := File("README", "../../app/static/README.tmpl",
      [("fullName", Literal(fullName.value)), ("fullNameSep", Literal(fullNameSep)), ("copyright", Literal(copyright))], []);
    root := AddChild(root, readme);
    var readmeMd := File("README.md", "../../app/static/README.md.tmpl",
      [("fullName", Literal(fullName.value)), ("copyright", Literal(copyright))], []);
    root := AddChild(root, readmeMd);
    var name := Name(sec);
    if name.Err? {
      return Some(name.error), dict';
    }
    var installRequires := CreateInstallRequires(ClientInstallRequires(store));
    var setup := File("setup.py", "../../app/static/setup.py.tmpl",
      [("name", Literal(name.value)), ("installRequires", Literal(installRequires))], []);
    root := AddChild(root, setup);
    var license := File("LICENSE", "../../app/static/LICENSE.tmpl", [], []);
    root := AddChild(root, license);
    var manifest := File("MANIFEST.in", "../../app/static/MANIFEST.in.tmpl", [], []);
    root := AddChild(root, manifest);
    var dist := File("dist.py", "dist.py.tmpl", [("name", Literal(name.value))], []);
    root := AddChild(root, dist);
    var clean := File("clean.py", "../../app/static/clean.py.tmpl", [("name", Literal(name.value))], []);
    root := AddChild(root, clean);
    Attached7("", readme, readmeMd, setup, license, manifest, dist, clean);
    dict' := dict.(root := root);
    return None, dict';
  }

  /** `_build_client_directory`: the client package, with the example method when it is included. */
  method BuildClientDirectory(store: Store, dict: ComponentsDict) returns (err: Option<ConfigError>, dict': ComponentsDict)
    ensures var sec := ClientSection(store);
            var cls := ClientClassName(store);
            var inc := IncludeExampleMethod(store);
            && (err.Some? <==> Name(sec).Err? || cls.Err? || inc.Err? || FullName(sec).Err?)
            && (err.Some? ==> err.value == if Name(sec).Err? then Name(sec).error
                                           else if cls.Err? then cls.error
                                           else if inc.Err? then inc.error
                                           else FullName(sec).error)
            && (err.None? ==>
                  var d := ClientDirFrom(Name(sec).value, cls.value, FullName(sec).value, inc.value);
                  dict' == dict.(root := AddChild(dict.root, d), clientDir := d))
  {
    dict' := dict;
    var sec := ClientSection(store);
    var name := Name(sec);
    if name.Err? {
      return Some(name.error), dict';
    }
    var clientDir := Dir(name.value, []);
    var className := ClientClassName(store);
    if className.Err? {
      return Some(className.error), dict';
    }
    var init := File("__init__.py", "../../app/static/app/__init__.py.tmpl",
      [("appClassName", Literal(className.value)), ("relPackage", Literal(".client"))], []);
    clientDir := AddChild(clientDir, init);
    var example := IncludeExampleMethod(store);
    if example.Err? {
      return Some(example.error), dict';
    }
    var fullName := FullName(sec);
    if fullName.Err? {
      return Some(fullName.error), dict';
    }
    var fileComp := File("client.py", "client/client.py.tmpl",
      [("clientClassName", Literal(className.value)), ("fullName", Literal(fullName.value)),
       (ImportsKey, Literal(if example.value then ClientExampleImports else ""))], []);
    if example.value {
      var comp := Code(ExampleMethodTemplate, [], 0, []);
      comp := comp.(indent := 1);
      FileChild(fileComp, comp);
      fileComp := AddChild(fileComp, comp);
    }
    assert fileComp == ClientFile(className.value, fullName.value, example.value);
    clientDir := AddChild(clientDir, fileComp);
    AttachedDir2(name.value, init, fileComp);
    dict' := dict.(root := AddChild(dict.root, clientDir), clientDir := clientDir);
    return None, dict';
  }

  /** `_build_sample_directory`: the sample files, and the basic sample with the example's invocation when included. */
  method BuildSampleDirectory(store: Store, dict: ComponentsDict) returns (err: Option<ConfigError>, dict': ComponentsDict)
    ensures var sec := ClientSection(store);
            var cls := ClientClassName(store);
            var inc := IncludeExampleMethod(store);
            && (err.Some? <==> inc.Err? || cls.Err? || Name(sec).Err?)
            && (err.Some? ==> err.value == if inc.Err? then inc.error else if cls.Err? then cls.error else Name(sec).error)
            && (err.None? ==>
                  dict' == dict.(root := AddChild(dict.root, SampleDirFrom(cls.value, Name(sec).value, inc.value))))
  {
    dict' := dict;
    var sec := ClientSection(store);
    var sampleDir := Dir("sample", []);
    var config := File("dxlclient.config", "../../app/static/config/dxlclient.config.tmpl", [], []);
    sampleDir := AddChild(sampleDir, config);
    var configDist := File("dxlclient.config.dist", "../../app/static/config/dxlclient.config.tmpl", [], []);
    sampleDir := AddChild(sampleDir, configDist);
    var common := File("common.py", "../../app/static/sample/common.py.tmpl", [], []);
    sampleDir := AddChild(sampleDir, common);
    var example := IncludeExampleMethod(store);
    if example.Err? {
      return Some(example.error), dict';
    }
    var className := ClientClassName(store);
    if className.Err? {
      return Some(className.error), dict';
    }
    var name := Name(sec);
    if name.Err? {
      return Some(name.error), dict';
    }
    var basicSample := File("basic_sample.py", "sample/basic/basic_sample.py.tmpl",
      [("clientClassName", Literal(className.value)), ("name", Literal(name.value)),
       (ImportsKey, Literal(if example.value then SampleExampleImports else ""))], []);
    if example.value {
      var comp := Code(InvokeExampleMethodTemplate, [], 0, []);
      comp := comp.(indent := 1);
      FileChild(basicSample, comp);
      basicSample := AddChild(basicSample, comp);
    }
    assert basicSample == BasicSampleFile(className.value, name.value, example.value);
    var basicDir := AddChild(Dir("basic", []), basicSample);
    sampleDir := AddChild(sampleDir, basicDir);
    AttachedDir4("sample", config, configDist, common, basicDir);
    AttachedDir1("basic", basicSample);
    dict' := dict.(root := AddChild(dict.root, sampleDir));
    return None, dict';
  }

  /** `_build_docs_directory` */
  method BuildDocsDirectory(store: Store, dict: ComponentsDict) returns (err: Option<ConfigError>, dict': ComponentsDict)
    ensures var sec := ClientSection(store);
            && (err.Some? <==> FullName(sec).Err? || Name(sec).Err?)
            && (err.Some? ==> err.value == if FullName(sec).Err? then FullName(sec).error else Name(sec).error)
            && (err.None? ==>
                  dict' == dict.(root := AddChild(dict.root, DocDirFrom(Copyright(sec), FullName(sec).value, Name(sec).value))))
  {
    dict' := dict;
    var sec := ClientSection(store);
    var copyright := Copyright(sec);
    var fullName := FullName(sec);
    if fullName.Err? {
      return Some(fullName.error), dict';
    }
    var name := Name(sec);
    if name.Err? {
      return Some(name.error), dict';
    }
    var doc := Dir("doc", []);
    var conf := File("conf.py", "../../app/static/doc/conf.py.tmpl",
      [("copyright", Literal(copyright)), ("fullName", Literal(fullName.value)), ("name", Literal(name.value))], []);
    doc := AddChild(doc, conf);
    var sdk := Dir("sdk", []);
    var fullNameSep := CreateUnderline(|fullName.value|, '=');
    assert fullNameSep == Underline(|fullName.value|, '=');
    var index := File("index.rst", "doc/sdk/index.rst.tmpl",
      [("fullName", Literal(fullName.value)), ("fullNameSep", Literal(fullNameSep)), ("name", Literal(name.value))], []);
    sdk := AddChild(sdk, index);
    var readme := File("README.html", "../../app/static/doc/sdk/README.html.tmpl",
      [("copyright", Literal(copyright)), ("fullName", Literal(fullName.value))], []);
    sdk := AddChild(sdk, readme);
    var overview := File("overview.rst", "../../app/static/doc/sdk/overview.rst.tmpl", [], []);
    sdk := AddChild(sdk, overview);
    var installation := File("installation.rst", "doc/sdk/installation.rst.tmpl", [("name", Literal(name.value))], []);
    sdk := AddChild(sdk, installation);
    var sampleConfig := File("sampleconfig.rst", "../../app/static/doc/sdk/sampleconfig.rst.tmpl",
      [("fullName", Literal(fullName.value))], []);
    sdk := AddChild(sdk, sampleConfig);
    AttachedDir5("sdk", index, readme, overview, installation, sampleConfig);
    doc := AddChild(doc, sdk);
    AttachedDir2("doc", conf, sdk);
    dict' := dict.(root := AddChild(dict.root, doc));
    return None, dict';
  }

  /** `_get_root_component`: the four steps on a fresh dictionary, the first error ending the build. */
  method GetRootComponent(store: Store) returns (r: Result<Component, ConfigError>)
    ensures r == ClientTreeOf(store)
  {
    var err, d := BuildRootDirectory(store, NewDict);
    if err.None? {
      err, d := BuildClientDirectory(store, d);
    }
    if err.None? {
      err, d := BuildSampleDirectory(store, d);
    }
    if err.None? {
      err, d := BuildDocsDirectory(store, d);
    }
    if err.Some? {
      return Err(err.value);
    }
    ghost var s := ClientSettingsOf(store).value;
    RootAttached(RootFilesFrom(s.fullName, s.name, s.copyright, s.installRequires),
                 ClientDirFrom(s.name, s.className, s.fullName, s.includeExample),
                 SampleDirFrom(s.className, s.name, s.includeExample),
                 DocDirFrom(s.copyright, s.fullName, s.name));
    return Ok(d.root);
  }

  /** Attaching the three directories one at a time gives the root files followed by the three, in order. */
  lemma RootAttached(files: seq<Component>, a: Component, b: Component, c: Component)
    ensures AddChild(AddChild(AddChild(Dir("", files), a), b), c) == Dir("", files + [a, b, c])
  {
    assert files + [a] + [b] + [c] == files + [a, b, c];
  }

  // Attaching children one at a time, stated once over arbitrary components.

  lemma FileChild(f: Component, child: Component)
    requires f.File? && f.children == []
    ensures AddChild(f, child) == f.(children := [child])
  {
  }

  lemma AttachedDir1(n: string, a: Component)
    ensures AddChild(Dir(n, []), a) == Dir(n, [a])
  {
  }

  lemma AttachedDir2(n: string, a: Component, b: Component)
    ensures AddChild(AddChild(Dir(n, []), a), b) == Dir(n, [a, b])
  {
    Attached2(Dir(n, []), a, b);
    assert [] + [a, b] == [a, b];
  }

  lemma AttachedDir4(n: string, a: Component, b: Component, c: Component, e: Component)
    ensures AddChild(AddChild(AddChild(AddChild(Dir(n, []), a), b), c), e) == Dir(n, [a, b, c, e])
  {
    Attached3(Dir(n, []), a, b, c);
    assert [] + [a, b, c] == [a, b, c];
    assert [a, b, c] + [e] == [a, b, c, e];
  }

  lemma AttachedDir5(n: string, a: Component, b: Component, c: Component, e: Component, f: Component)
    ensures AddChild(AddChild(AddChild(AddChild(AddChild(Dir(n, []), a), b), c), e), f) == Dir(n, [a, b, c, e, f])
  {
    Attached5(Dir(n, []), a, b, c, e, f);
    assert [] + [a, b, c, e, f] == [a, b, c, e, f];
  }

  lemma Attached2(d: Component, a: Component, b: Component)
    ensures AddChild(AddChild(d, a), b) == d.(children := d.children + [a, b])
  {
    assert d.children + [a] + [b] == d.children + [a, b];
  }

  lemma Attached3(d: Component, a: Component, b: Component, c: Component)
    ensures AddChild(AddChild(AddChild(d, a), b), c) == d.(children := d.children + [a, b, c])
  {
    assert d.children + [a] + [b] + [c] == d.children + [a, b, c];
  }

  /** Five children attached one at a time end up after the earlier ones, in the order attached. */
  lemma Attached5(d: Component, a: Component, b: Component, c: Component, e: Component, f: Component)
    ensures AddChild(AddChild(AddChild(AddChild(AddChild(d, a), b), c), e), f)
            == d.(children := d.children + [a, b, c, e, f])
  {
    Attached3(d, a, b, c);
    Attached2(AddChild(AddChild(AddChild(d, a), b), c), e, f);
    assert d.children + [a, b, c] + [e, f] == d.children + [a, b, c, e, f];
  }

  lemma Attached7(n: string, a: Component, b: Component, c: Component, e: Component, f: Component,
                  g: Component, h: Component)
    ensures AddChild(AddChild(AddChild(AddChild(AddChild(AddChild(AddChild(Dir(n, []), a), b), c), e), f), g), h)
            == Dir(n, [a, b, c, e, f, g, h])
  {
    Attached2(Dir(n, []), a, b);
    assert [] + [a, b] == [a, b];
    Attached5(Dir(n, [a, b]), c, e, f, g, h);
    assert [a, b] + [c, e, f, g, h] == [a, b, c, e, f, g, h];
  }
}
