/**
  class VSCImportTest: import every package, module and script of the
  repository and, when CHECK_HEADER is set, check the header of their files.
  __import__ and check_header are outside functions and come in as
  parameters; sys.modules is a set of names threaded through the calls.
 */
module ImportTest {
  import opened Python

  /** What a step did, and sys.modules afterwards */
  datatype Step = Step(outcome: Outcome<()>, modules: set<string>)

  /** __import__(name) against sys.modules */
  type Importer = (string, set<string>) -> Step

  /** check_header(path, script=...) with write=False: true when the header is not compliant */
  type HeaderCheck = (string, bool) -> bool

  /** What `except ImportError: pass` lets through to the membership test */
  predicate Swallowed(o: Outcome<()>)
    ensures o.Return? ==> Swallowed(o)
    ensures o.Raise? ==> (Swallowed(o) <==> o.exc.kind == ImportError)
  {
    o.Return? || o.exc.kind == ImportError
  }

  function ImportMessage(name: string): (m: string)
    ensures StartsWith(m, "import " + name)
    ensures EndsWith(m, " was success")
  {
    "import " + name + " was success"
  }

  /**
    _import(name): an ImportError is swallowed, any other error propagates,
    and then the name must be in sys.modules.
   */
  function ImportOne(name: string, importer: Importer, modules: set<string>): (s: Step)
    ensures s.modules == importer(name, modules).modules
    ensures !Swallowed(importer(name, modules).outcome) ==> s.outcome == importer(name, modules).outcome
    ensures Swallowed(importer(name, modules).outcome) ==>
      (s.outcome.Return? <==> name in importer(name, modules).modules)
    ensures Swallowed(importer(name, modules).outcome) && s.outcome.Raise? ==>
      s.outcome.exc == Raised(AssertionError, ImportMessage(name))
  {
    var t := importer(name, modules);
    if !Swallowed(t.outcome) then t
    else if name in t.modules then Step(Return(()), t.modules)
    else Step(Raise(Raised(AssertionError, ImportMessage(name))), t.modules)
  }

  /** The assertFalse(check_header(...)) calls over the files, in order */
  function HeadersSpec(files: seq<string>, script: bool, headerBad: HeaderCheck): (r: Outcome<()>)
    ensures files == [] ==> r.Return?
    ensures r.Raise? ==> r.exc.kind == AssertionError
  {
    if files == [] then Return(())
    else if headerBad(files[0], script) then Raise(Raised(AssertionError, "check_header of " + files[0]))
    else HeadersSpec(files[1..], script, headerBad)
  }

  /** The header check passes exactly when every file is compliant, and else names the first bad file. */
  lemma {:induction false} HeadersFirstBad(files: seq<string>, script: bool, headerBad: HeaderCheck)
    ensures HeadersSpec(files, script, headerBad).Return? <==>
      forall i :: 0 <= i < |files| ==> !headerBad(files[i], script)
    ensures HeadersSpec(files, script, headerBad).Raise? ==>
      exists i :: 0 <= i < |files| && headerBad(files[i], script)
        && (forall j :: 0 <= j < i ==> !headerBad(files[j], script))
        && HeadersSpec(files, script, headerBad).exc == Raised(AssertionError, "check_header of " + files[i])
  {
    if files != [] && !headerBad(files[0], script) {
      HeadersFirstBad(files[1..], script, headerBad);
      if HeadersSpec(files, script, headerBad).Raise? {
        var i :| 0 <= i < |files[1..]| && headerBad(files[1..][i], script)
          && (forall j :: 0 <= j < i ==> !headerBad(files[1..][j], script))
          && HeadersSpec(files[1..], script, headerBad).exc == Raised(AssertionError, "check_header of " + files[1..][i]);
        assert headerBad(files[i + 1], script);
      }
    }
  }

  /** The header checks for one package or script, as a loop */
  method CheckHeaders(files: seq<string>, script: bool, headerBad: HeaderCheck) returns (r: Outcome<()>)
    ensures r == HeadersSpec(files, script, headerBad)
  {
    var i := 0;
    while i < |files|
      invariant 0 <= i <= |files|
      invariant HeadersSpec(files, script, headerBad) == HeadersSpec(files[i..], script, headerBad)
    {
      assert files[i..][1..] == files[i + 1..];
      if headerBad(files[i], script) {
        return Raise(Raised(AssertionError, "check_header of " + files[i]));
      }
      i := i + 1;
    }
    return Return(());
  }

  /** test_import_modules: import each module in turn; the first failure ends the test */
  function ModulesSpec(mods: seq<string>, importer: Importer, modules: set<string>): (s: Step)
    // an ImportError never escapes: it becomes the assertion failure of _import
    ensures mods == [] ==> s == Step(Return(()), modules)
    ensures s.outcome.Raise? ==> s.outcome.exc.kind != ImportError
    decreases |mods|
  {
    if mods == [] then Step(Return(()), modules)
    else
      var s := ImportOne(mods[0], importer, modules);
      if s.outcome.Raise? then s else ModulesSpec(mods[1..], importer, s.modules)
  }

  /**
    test_import_packages; `files` is FILES_IN_PACKAGES['packages'], and a
    package missing from it raises KeyError when headers are checked.
   */
  function PackagesSpec(
    pkgs: seq<string>, files: map<string, seq<string>>, checkHeader: bool,
    headerBad: HeaderCheck, importer: Importer, modules: set<string>): (s: Step)
    ensures s.outcome.Raise? ==> s.outcome.exc.kind != ImportError
    ensures pkgs == [] ==> s == Step(Return(()), modules)
    decreases |pkgs|
  {
    if pkgs == [] then Step(Return(()), modules)
    else
      var s := ImportOne(pkgs[0], importer, modules);
      if s.outcome.Raise? then s
      else if checkHeader && pkgs[0] !in files then Step(Raise(KeyErrorOf(pkgs[0])), s.modules)
      else if checkHeader && HeadersSpec(files[pkgs[0]], false, headerBad).Raise? then
        Step(HeadersSpec(files[pkgs[0]], false, headerBad), s.modules)
      else PackagesSpec(pkgs[1..], files, checkHeader, headerBad, importer, s.modules)
  }

  /** os.path.basename(path): what follows the last '/' */
  function Basename(path: string): (b: string)
    ensures |b| <= |path| && b == path[|path| - |b|..]
    ensures forall i :: 0 <= i < |b| ==> b[i] != '/'
    ensures |b| < |path| ==> path[|path| - |b| - 1] == '/'
    decreases |path|
  {
    if |path| == 0 || path[|path| - 1] == '/' then ""
    else Basename(path[..|path| - 1]) + [path[|path| - 1]]
  }

  /** A path ending in ".py" keeps that suffix in its basename. */
  lemma BasenameKeepsPy(script: string)
    requires EndsWith(script, ".py")
    ensures EndsWith(Basename(script), ".py")
  {
  }

  /** os.path.basename(scr)[:-len('.py')]: the module a script is imported as */
  function ModuleNameOf(script: string): (name: string)
    requires EndsWith(script, ".py")
    ensures name + ".py" == Basename(script)
    ensures forall i :: 0 <= i < |name| ==> name[i] != '/'
  {
    BasenameKeepsPy(script);
    var b := Basename(script);
    assert b == b[..|b| - 3] + b[|b| - 3..];
    b[..|b| - 3]
  }

  /** test_importscripts: scripts not ending in ".py" are skipped */
  function ScriptsSpec(
    scripts: seq<string>, checkHeader: bool, headerBad: HeaderCheck,
    importer: Importer, modules: set<string>): (s: Step)
    // scripts that do not end in ".py" are neither imported nor checked
    ensures (forall i :: 0 <= i < |scripts| ==> !EndsWith(scripts[i], ".py")) ==> s == Step(Return(()), modules)
    ensures s.outcome.Raise? ==> s.outcome.exc.kind != ImportError
    decreases |scripts|
  {
    if scripts == [] then Step(Return(()), modules)
    else if !EndsWith(scripts[0], ".py") then ScriptsSpec(scripts[1..], checkHeader, headerBad, importer, modules)
    else
      var s := ImportOne(ModuleNameOf(scripts[0]), importer, modules);
      if s.outcome.Raise? then s
      else if checkHeader && headerBad(scripts[0], true) then
        Step(Raise(Raised(AssertionError, "check_header of " + scripts[0])), s.modules)
      else ScriptsSpec(scripts[1..], checkHeader, headerBad, importer, s.modules)
  }

  /** The module names test_importscripts imports, in order */
  function ScriptModules(scripts: seq<string>): seq<string>
  {
    if scripts == [] then []
    else (if EndsWith(scripts[0], ".py") then [ModuleNameOf(scripts[0])] else []) + ScriptModules(scripts[1..])
  }

  /** test_import_modules, as the loop it is */
  method TestImportModules(mods: seq<string>, importer: Importer, modules0: set<string>) returns (s: Step)
    ensures s == ModulesSpec(mods, importer, modules0)
  {
    var modules := modules0;
    var i := 0;
    while i < |mods|
      invariant 0 <= i <= |mods|
      invariant ModulesSpec(mods, importer, modules0) == ModulesSpec(mods[i..], importer, modules)
    {
      assert mods[i..][1..] == mods[i + 1..];
      var t := ImportOne(mods[i], importer, modules);
      if t.outcome.Raise? {
        return t;
      }
      modules := t.modules;
      i := i + 1;
    }
    return Step(Return(()), modules);
  }

  /** test_import_packages, as the loop it is */
  method TestImportPackages(
    pkgs: seq<string>, files: map<string, seq<string>>, checkHeader: bool,
    headerBad: HeaderCheck, importer: Importer, modules0: set<string>) returns (s: Step)
    ensures s == PackagesSpec(pkgs, files, checkHeader, headerBad, importer, modules0)
  {
    var modules := modules0;
    var i := 0;
    while i < |pkgs|
      invariant 0 <= i <= |pkgs|
      invariant PackagesSpec(pkgs, files, checkHeader, headerBad, importer, modules0)
             == PackagesSpec(pkgs[i..], files, checkHeader, headerBad, importer, modules)
    {
      assert pkgs[i..][1..] == pkgs[i + 1..];
      var t := ImportOne(pkgs[i], importer, modules);
      if t.outcome.Raise? {
        return t;
      }
      modules := t.modules;
      if checkHeader {
        if pkgs[i] !in files {
          return Step(Raise(KeyErrorOf(pkgs[i])), modules);
        }
        var h := CheckHeaders(files[pkgs[i]], false, headerBad);
        if h.Raise? {
          return Step(h, modules);
        }
      }
      i := i + 1;
    }
    return Step(Return(()), modules);
  }

  /** test_importscripts, as the loop it is */
  method TestImportScripts(
    scripts: seq<string>, checkHeader: bool, headerBad: HeaderCheck,
    importer: Importer, modules0: set<string>) returns (s: Step)
    ensures s == ScriptsSpec(scripts, checkHeader, headerBad, importer, modules0)
  {
    var modules := modules0;
    var i := 0;
    while i < |scripts|
      invariant 0 <= i <= |scripts|
      invariant ScriptsSpec(scripts, checkHeader, headerBad, importer, modules0)
             == ScriptsSpec(scripts[i..], checkHeader, headerBad, importer, modules)
    {
      assert scripts[i..][1..] == scripts[i + 1..];
      var scr := scripts[i];
      i := i + 1;
      if !EndsWith(scr, ".py") {
        continue;
      }
      var t := ImportOne(ModuleNameOf(scr), importer, modules);
      if t.outcome.Raise? {
        return t;
      }
      modules := t.modules;
      if checkHeader && headerBad(scr, true) {
        return Step(Raise(Raised(AssertionError, "check_header of " + scr)), modules);
      }
    }
    return Step(Return(()), modules);
  }

  /** Without the header check, test_import_packages is test_import_modules over the packages. */
  lemma {:induction false} PackagesWithoutHeaders(
    pkgs: seq<string>, files: map<string, seq<string>>, headerBad: HeaderCheck,
    importer: Importer, modules: set<string>)
    ensures PackagesSpec(pkgs, files, false, headerBad, importer, modules) == ModulesSpec(pkgs, importer, modules)
    decreases |pkgs|
  {
    if pkgs != [] {
      var s := ImportOne(pkgs[0], importer, modules);
      PackagesWithoutHeaders(pkgs[1..], files, headerBad, importer, s.modules);
    }
  }

  /**
    Without the header check, test_importscripts is test_import_modules over
    the basenames, stripped of ".py", of the scripts that end in ".py".
   */
  lemma {:induction false} ScriptsAsModules(
    scripts: seq<string>, headerBad: HeaderCheck, importer: Importer, modules: set<string>)
    ensures ScriptsSpec(scripts, false, headerBad, importer, modules)
         == ModulesSpec(ScriptModules(scripts), importer, modules)
    decreases |scripts|
  {
    if scripts != [] {
      var rest := ScriptModules(scripts[1..]);
      if EndsWith(scripts[0], ".py") {
        var name := ModuleNameOf(scripts[0]);
        assert ScriptModules(scripts) == [name] + rest;
        assert ([name] + rest)[1..] == rest;
        var s := ImportOne(name, importer, modules);
        ScriptsAsModules(scripts[1..], headerBad, importer, s.modules);
      } else {
        assert ScriptModules(scripts) == rest;
        ScriptsAsModules(scripts[1..], headerBad, importer, modules);
      }
    }
  }

  /** A test_import_packages that passes with CHECK_HEADER set found every file of every package compliant. */
  lemma {:induction false} PackagesPassedHeadersClean(
    pkgs: seq<string>, files: map<string, seq<string>>, headerBad: HeaderCheck,
    importer: Importer, modules: set<string>, k: nat)
    requires PackagesSpec(pkgs, files, true, headerBad, importer, modules).outcome.Return?
    requires k < |pkgs|
    ensures pkgs[k] in files
    ensures forall f :: f in files[pkgs[k]] ==> !headerBad(f, false)
    decreases |pkgs|
  {
    var s := ImportOne(pkgs[0], importer, modules);
    if k == 0 {
      HeadersFirstBad(files[pkgs[0]], false, headerBad);
    } else {
      PackagesPassedHeadersClean(pkgs[1..], files, headerBad, importer, s.modules, k - 1);
    }
  }
}
