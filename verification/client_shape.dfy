/**
 * What the client template's tree looks like: which entries the root and
 * the client package hold, in which order, what the example-method option
 * switches on, and which error a missing option gives.
 */
module ClientShape {
  import opened Wrappers
  import opened Config
  import opened Resources
  import opened Components
  import opened ClientTemplate

  /**
   * The build fails naming the first option it cannot read, in the order
   * the steps read them: `fullName`, `name`, `clientClassName`, then a
   * present `includeExampleMethod` that is not a boolean word.
   */
  lemma ClientFirstMissingOption(store: Store)
    ensures var sec := ClientSection(store);
            && (!sec.Has("fullName") ==> ClientTreeOf(store) == Err(Missing("fullName", "Client")))
            && (sec.Has("fullName") && !sec.Has("name") ==> ClientTreeOf(store) == Err(Missing("name", "Client")))
            && (sec.Has("fullName") && sec.Has("name") && !sec.Has("clientClassName") ==>
                  ClientTreeOf(store) == Err(Missing("clientClassName", "Client")))
            && (sec.Has("fullName") && sec.Has("name") && sec.Has("clientClassName") ==>
                  (ClientTreeOf(store).Err? <==> IncludeExampleMethod(store).Err?))
  {
    var sec := ClientSection(store);
    PropertyRules(sec, "fullName", None, true);
    PropertyRules(sec, "name", None, true);
    ClientOptionRules(store);
  }

  /** The root: the seven files, then the client package (named by `name`), the sample and the doc directories. */
  lemma ClientRootNames(s: ClientSettings)
    ensures Names(ClientRootOf(s).children)
            == ["README", "README.md", "setup.py", "LICENSE", "MANIFEST.in", "dist.py", "clean.py", s.name, "sample", "doc"]
  {
    var files := RootFilesFrom(s.fullName, s.name, s.copyright, s.installRequires);
    assert Names(files) == ["README", "README.md", "setup.py", "LICENSE", "MANIFEST.in", "dist.py", "clean.py"];
    var dirs := [ClientDirFrom(s.name, s.className, s.fullName, s.includeExample),
                 SampleDirFrom(s.className, s.name, s.includeExample),
                 DocDirFrom(s.copyright, s.fullName, s.name)];
    assert Names(dirs) == [s.name, "sample", "doc"];
    assert ClientRootOf(s).children == files + dirs;
  }

  /** The client package is the root's eighth entry and holds `__init__.py`, then `client.py`. */
  lemma ClientDirNames(s: ClientSettings)
    ensures var d := ClientRootOf(s).children[7];
            && d.Dir? && d.name == s.name
            && Names(d.children) == ["__init__.py", "client.py"]
            && d.children[1] == ClientFile(s.className, s.fullName, s.includeExample)
  {
  }

  /**
   * `client.py` holds exactly one child, the example method at indent 1,
   * when the example is included, and none otherwise; its additional
   * imports are non-empty exactly when the example is included.
   */
  lemma ClientFileExample(className: string, fullName: string, withExample: bool)
    ensures var f := ClientFile(className, fullName, withExample);
            && |f.children| == (if withExample then 1 else 0)
            && (forall c :: c in f.children ==> c.Code? && c.template == ExampleMethodTemplate && c.indent == 1)
            && ImportsText(f.replacements).Some?
            && (ImportsText(f.replacements).value != "" <==> withExample)
  {
    LookupThird("clientClassName", Literal(className), "fullName", Literal(fullName),
                ImportsKey, Literal(if withExample then ClientExampleImports else ""));
  }

  /**
   * `basic_sample.py` holds exactly one child, the invocation of the
   * example method at indent 1, when the example is included, and none
   * otherwise; its additional imports are non-empty exactly when the
   * example is included.
   */
  lemma BasicSampleExample(className: string, name: string, withExample: bool)
    ensures var f := BasicSampleFile(className, name, withExample);
            && |f.children| == (if withExample then 1 else 0)
            && (forall c :: c in f.children ==> c.Code? && c.template == InvokeExampleMethodTemplate && c.indent == 1)
            && ImportsText(f.replacements).Some?
            && (ImportsText(f.replacements).value != "" <==> withExample)
  {
    LookupThird("clientClassName", Literal(className), "name", Literal(name),
                ImportsKey, Literal(if withExample then SampleExampleImports else ""));
  }

  /** The basic sample sits in `sample/basic/`, after the two client configurations and `common.py`. */
  lemma SamplePlacement(s: ClientSettings)
    ensures var sample := ClientRootOf(s).children[8];
            && Names(sample.children) == ["dxlclient.config", "dxlclient.config.dist", "common.py", "basic"]
            && sample.children[3].children == [BasicSampleFile(s.className, s.name, s.includeExample)]
  {
  }

  /** The text a replacement dictionary gives `additionalImports`, when it gives a literal. */
  function ImportsText(reps: Replacements): Option<string>
  {
    match Lookup(reps, ImportsKey)
    case Some(Literal(t)) => Some(t)
    case _ => None
  }

  /** The third entry decides a lookup when the first two have other keys. */
  lemma LookupThird(k1: string, v1: Value, k2: string, v2: Value, k3: string, v3: Value)
    requires k1 != k3 && k2 != k3
    ensures Lookup([(k1, v1), (k2, v2), (k3, v3)], k3) == Some(v3)
  {
    var reps := [(k1, v1), (k2, v2), (k3, v3)];
    assert reps[1..] == [(k2, v2), (k3, v3)];
    assert reps[1..][1..] == [(k3, v3)];
    assert Lookup(reps, k3) == Lookup(reps[1..], k3);
    assert Lookup(reps[1..], k3) == Lookup(reps[1..][1..], k3);
  }
}
