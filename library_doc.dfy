/**
 * The first library documentation agent, backend/app/agents/library_doc_agent.py:
 * import name cleaning, the table / registry / browser-API lookup chain, the
 * per-name library map and the five-way categorisation. The npm and PyPI
 * registry fetches are inputs: each answers a package name with a record or nothing.
 */
module LibraryDoc {
  import opened Wrappers
  import opened Strings
  import opened Seqs
  import opened Dicts

  datatype LibraryInfo = LibraryInfo(name: string, docSummary: string, link: Option<string>, version: Option<string>)

  /** A registry fetch: the record it builds, or nothing on any failure. */
  type Registry = string -> Option<LibraryInfo>

  function Known(name: string, summary: string, link: string): LibraryInfo
  {
    LibraryInfo(name, summary, Some(link), None)
  }

  /** The predefined documentation table, keyed by cleaned name. */
  const LibraryDocs: map<string, LibraryInfo> := map[
    "react" := Known("React", "A JavaScript library for building user interfaces", "https://reactjs.org/docs/getting-started.html"),
    "lodash" := Known("Lodash", "A modern JavaScript utility library", "https://lodash.com/docs"),
    "axios" := Known("Axios", "Promise-based HTTP client for the browser and node.js", "https://axios-http.com/docs/intro"),
    "express" := Known("Express", "Fast, unopinionated, minimalist web framework for Node.js", "https://expressjs.com/"),
    "requests" := Known("Requests", "Python HTTP library for making API calls", "https://requests.readthedocs.io/en/latest/"),
    "pandas" := Known("Pandas", "Data manipulation and analysis library", "https://pandas.pydata.org/docs/"),
    "numpy" := Known("NumPy", "Fundamental package for scientific computing", "https://numpy.org/doc/"),
    "flask" := Known("Flask", "Lightweight web application framework", "https://flask.palletsprojects.com/"),
    "fastapi" := Known("FastAPI", "Modern, fast web framework for building APIs", "https://fastapi.tiangolo.com/")]

  /** The MDN Web API reference, which every browser API link below extends. */
  const MdnWebApi: string := "https://developer.mozilla.org/en-US/docs/Web/API/"

  const BrowserApis: map<string, LibraryInfo> := map[
    "fetch" := Known("Fetch API", "Web API for making HTTP requests", MdnWebApi + "Fetch_API"),
    "localstorage" := Known("localStorage", "Web API for storing data in the browser", MdnWebApi + "Window/localStorage"),
    "sessionstorage" := Known("sessionStorage", "Web API for storing session data", MdnWebApi + "Window/sessionStorage"),
    "console" := Known("Console API", "Web API for browser console logging", MdnWebApi + "Console")]

  // ---------------------------------------------------------------------------
  // Cleaning import names

  const Suffixes: seq<string> := ["-js", "-jsx", "-ts", "-tsx", "-react"]

  function RemoveSuffix(s: string, suffix: string): (r: string)
    ensures r <= s
  {
    if EndsWith(s, suffix) then s[..|s| - |suffix|] else s
  }

  /** Each suffix in turn, removed once when the text ends with it. */
  function RemoveSuffixes(s: string, suffixes: seq<string>): (r: string)
    ensures r <= s
  {
    if |suffixes| == 0 then s else RemoveSuffix(RemoveSuffixes(s, suffixes[..|suffixes| - 1]), suffixes[|suffixes| - 1])
  }

  /** A scoped `@scope/name…` keeps its second segment; a bare `@scope` loses the `@`. */
  function Unscoped(lowered: string): string
  {
    if StartsWith(lowered, "@") then
      var parts := Split(lowered, '/');
      if |parts| > 1 then parts[1] else lowered[1..]
    else lowered
  }

  /** The last `/` segment, up to its first `.`. */
  function BaseName(s: string): (r: string)
    ensures '/' !in r && '.' !in r
  {
    var b := Before(After(s, '/'), '.');
    assert b <= After(s, '/');
    b
  }

  /** The cleaned library name of an import; the empty import has none, and a name is never empty. */
  function CleanName(importName: string): (r: Option<string>)
    ensures importName == "" ==> r.None?
    ensures r.Some? ==> r.value != ""
  {
    if importName == "" then None
    else
      var r := RemoveSuffixes(BaseName(Unscoped(Lower(importName))), Suffixes);
      if r == "" then None else Some(r)
  }

  /** The library name of an import, or nothing for an empty import or one that cleans to nothing. */
  method CleanImportName(importName: string) returns (clean: Option<string>)
    ensures clean == CleanName(importName)
  {
    if importName == "" {
      return None;
    }
    var cleanName := Lower(importName);
    if StartsWith(cleanName, "@") {
      var parts := Split(cleanName, '/');
      if |parts| > 1 {
        cleanName := parts[1];
      } else {
        SplitNoSeparator(cleanName, '/');
        cleanName := parts[0][1..];
      }
    }
    cleanName := Last(Split(cleanName, '/'));
    cleanName := Split(cleanName, '.')[0];
    ghost var base := cleanName;
    var i := 0;
    while i < |Suffixes|
      invariant 0 <= i <= |Suffixes|
      invariant cleanName == RemoveSuffixes(base, Suffixes[..i])
    {
      var suffix := Suffixes[i];
      assert Suffixes[..i + 1][..i] == Suffixes[..i];
      if EndsWith(cleanName, suffix) {
        cleanName := cleanName[..|cleanName| - |suffix|];
      }
      i := i + 1;
    }
    assert Suffixes[..i] == Suffixes;
    clean := if cleanName != "" then Some(cleanName) else None;
  }

  // ---------------------------------------------------------------------------
  // Lookup

  /** Case-insensitive lookup in the browser API table; every browser API record links into the MDN Web API reference. */
  function CheckBrowserApi(apiName: string): (r: Option<LibraryInfo>)
    ensures r.Some? ==> r.value.link.Some? && StartsWith(r.value.link.value, MdnWebApi)
  {
    var key := Lower(apiName);
    if key in BrowserApis then Some(BrowserApis[key]) else None
  }

  function Fallback(libraryName: string): LibraryInfo
  {
    LibraryInfo(libraryName, "External library: " + libraryName, None, None)
  }

  /**
   * The table first, then npm, then PyPI, then the browser APIs, then a basic
   * record. Without a registry answer, the record lacks a link exactly when it
   * is the basic record: table and browser API records all carry one.
   */
  function GetLibraryInfo(libraryName: string, npm: Registry, pypi: Registry): (r: LibraryInfo)
    ensures npm(libraryName).None? && pypi(libraryName).None? ==> (r.link.None? <==> r == Fallback(libraryName))
  {
    if libraryName in LibraryDocs then LibraryDocs[libraryName]
    else if npm(libraryName).Some? then npm(libraryName).value
    else if pypi(libraryName).Some? then pypi(libraryName).value
    else if CheckBrowserApi(libraryName).Some? then CheckBrowserApi(libraryName).value
    else Fallback(libraryName)
  }

  // ---------------------------------------------------------------------------
  // Analysis over files

  /** The cleaned, non-empty library names of all imports of all files, in order. */
  function CleanedNames(imports: seq<string>): seq<string>
  {
    if |imports| == 0 then []
    else
      var c := CleanName(imports[|imports| - 1]);
      CleanedNames(imports[..|imports| - 1]) + (if c.Some? then [c.value] else [])
  }

  /** The library map: a record for each new name, the first occurrence winning. */
  function LibraryMap(names: seq<string>, npm: Registry, pypi: Registry): Dict<LibraryInfo>
  {
    if |names| == 0 then []
    else
      var d := LibraryMap(names[..|names| - 1], npm, pypi);
      var n := names[|names| - 1];
      if n in Keys(d) then d else d + [Entry(n, GetLibraryInfo(n, npm, pypi))]
  }

  function Values<V>(d: Dict<V>): (vs: seq<V>)
    ensures |vs| == |d| && forall i :: 0 <= i < |d| ==> vs[i] == d[i].value
  {
    seq(|d|, i requires 0 <= i < |d| => d[i].value)
  }

  /** `files` holds each file's import list (an empty list where a file has none). */
  function AnalyzedLibraries(files: seq<seq<string>>, npm: Registry, pypi: Registry): seq<LibraryInfo>
  {
    Values(LibraryMap(CleanedNames(Flatten(files)), npm, pypi))
  }

  lemma CleanedNamesStep(all: seq<string>, i: nat)
    requires i < |all|
    ensures var c := CleanName(all[i]);
      CleanedNames(all[..i + 1]) == CleanedNames(all[..i]) + (if c.Some? then [c.value] else [])
  {
    assert all[..i + 1][..i] == all[..i];
  }

  lemma LibraryMapSnoc(names: seq<string>, n: string, npm: Registry, pypi: Registry)
    ensures var d := LibraryMap(names, npm, pypi);
      LibraryMap(names + [n], npm, pypi) == if n in Keys(d) then d else d + [Entry(n, GetLibraryInfo(n, npm, pypi))]
  {
    assert (names + [n])[..|names|] == names;
  }

  method AnalyzeLibraries(files: seq<seq<string>>, npm: Registry, pypi: Registry) returns (libraries: seq<LibraryInfo>)
    ensures libraries == AnalyzedLibraries(files, npm, pypi)
  {
    var all := ConcatAll(files);
    var libraryMap: Dict<LibraryInfo> := [];
    ghost var names: seq<string> := [];
    var i := 0;
    while i < |all|
      invariant 0 <= i <= |all|
      invariant names == CleanedNames(all[..i])
      invariant libraryMap == LibraryMap(names, npm, pypi)
    {
      CleanedNamesStep(all, i);
      var cleanName := CleanImportName(all[i]);
      if cleanName.Some? {
        LibraryMapSnoc(names, cleanName.value, npm, pypi);
        names := names + [cleanName.value];
        if cleanName.value !in Keys(libraryMap) {
          var info := GetLibraryInfo(cleanName.value, npm, pypi);
          libraryMap := libraryMap + [Entry(cleanName.value, info)];
        }
      }
      i := i + 1;
    }
    TakeAll(all, []);
    libraries := Values(libraryMap);
  }

  // ---------------------------------------------------------------------------
  // Categories

  const FrontendLibs: seq<string> := ["react", "vue", "angular", "jquery", "lodash", "axios"]
  const BackendLibs: seq<string> := ["express", "fastapi", "flask", "django", "sqlalchemy"]
  const TestingLibs: seq<string> := ["jest", "mocha", "pytest", "unittest"]
  const BuildLibs: seq<string> := ["webpack", "vite", "rollup", "babel"]

  /** The category keys, in the order the categories dict is built. */
  const CategoryKeys: seq<string> := ["frontend", "backend", "utility", "testing", "build_tools"]

  /** The one category of a library, by its lower-cased name, frontend before backend before testing before build tools. */
  function CategoryOf(lib: LibraryInfo): string
  {
    var n := Lower(lib.name);
    if n in FrontendLibs then "frontend"
    else if n in BackendLibs then "backend"
    else if n in TestingLibs then "testing"
    else if n in BuildLibs then "build_tools"
    else "utility"
  }

  /** The libraries of one category, in input order. */
  function InCategory(libs: seq<LibraryInfo>, category: string): seq<LibraryInfo>
  {
    if |libs| == 0 then []
    else InCategory(libs[..|libs| - 1], category) + (if CategoryOf(libs[|libs| - 1]) == category then [libs[|libs| - 1]] else [])
  }

  function Categorized(libs: seq<LibraryInfo>): Dict<seq<LibraryInfo>>
  {
    seq(5, i requires 0 <= i < 5 => Entry(CategoryKeys[i], InCategory(libs, CategoryKeys[i])))
  }

  lemma InCategoryStep(libs: seq<LibraryInfo>, i: nat, category: string)
    requires i < |libs|
    ensures InCategory(libs[..i + 1], category) ==
      InCategory(libs[..i], category) + (if CategoryOf(libs[i]) == category then [libs[i]] else [])
  {
    assert libs[..i + 1][..i] == libs[..i];
  }

  lemma CategorizedEntries(libs: seq<LibraryInfo>)
    ensures Categorized(libs) == [Entry("frontend", InCategory(libs, "frontend")), Entry("backend", InCategory(libs, "backend")),
      Entry("utility", InCategory(libs, "utility")), Entry("testing", InCategory(libs, "testing")),
      Entry("build_tools", InCategory(libs, "build_tools"))]
  {
  }

  method CategorizeLibraries(libraries: seq<LibraryInfo>) returns (categories: Dict<seq<LibraryInfo>>)
    ensures categories == Categorized(libraries)
  {
    var frontend: seq<LibraryInfo> := [];
    var backend: seq<LibraryInfo> := [];
    var utility: seq<LibraryInfo> := [];
    var testing: seq<LibraryInfo> := [];
    var buildTools: seq<LibraryInfo> := [];
    var i := 0;
    while i < |libraries|
      invariant 0 <= i <= |libraries|
      invariant frontend == InCategory(libraries[..i], "frontend")
      invariant backend == InCategory(libraries[..i], "backend")
      invariant utility == InCategory(libraries[..i], "utility")
      invariant testing == InCategory(libraries[..i], "testing")
      invariant buildTools == InCategory(libraries[..i], "build_tools")
    {
      InCategoryStep(libraries, i, "frontend");
      InCategoryStep(libraries, i, "backend");
      InCategoryStep(libraries, i, "utility");
      InCategoryStep(libraries, i, "testing");
      InCategoryStep(libraries, i, "build_tools");
      var lib := libraries[i];
      var category := CategoryOf(lib);
      if category == "frontend" {
        frontend := frontend + [lib];
      } else if category == "backend" {
        backend := backend + [lib];
      } else if category == "testing" {
        testing := testing + [lib];
      } else if category == "build_tools" {
        buildTools := buildTools + [lib];
      } else {
        utility := utility + [lib];
      }
      i := i + 1;
    }
    TakeAll(libraries, []);
    CategorizedEntries(libraries);
    categories := [Entry("frontend", frontend), Entry("backend", backend), Entry("utility", utility),
                   Entry("testing", testing), Entry("build_tools", buildTools)];
  }

  // ---------------------------------------------------------------------------
  // Properties

  /** A cleaned name is non-empty, lower-case, and holds no `/` and no `.`. */
  lemma CleanNameShape(importName: string)
    ensures var c := CleanName(importName);
      c.Some? ==> (c.value != "" && '/' !in c.value && '.' !in c.value &&
                   forall i :: 0 <= i < |c.value| ==> !IsUpper(c.value[i]))
  {
    if importName != "" {
      var lowered := Lower(importName);
      var u := Unscoped(lowered);
      assert forall x :: x in u ==> x in lowered by {
        if StartsWith(lowered, "@") {
          SplitPartChars(lowered, '/');
          if |Split(lowered, '/')| > 1 {
            assert forall x :: x in Split(lowered, '/')[1] ==> x in lowered;
          }
        }
      }
      SplitPartChars(u, '/');
      var a := After(u, '/');
      assert forall x :: x in a ==> x in u;
      var b := BaseName(u);
      assert b <= a;
      var r := RemoveSuffixes(b, Suffixes);
      assert forall x :: x in r ==> x in lowered;
      forall i | 0 <= i < |r|
        ensures !IsUpper(r[i])
      {
        assert r[i] in lowered;
      }
    }
  }

  /** Suffix removal takes at most the five suffixes' characters off the end. */
  lemma {:induction false} RemoveSuffixesBound(s: string, suffixes: seq<string>)
    ensures RemoveSuffixes(s, suffixes) <= s
    ensures |s| - |RemoveSuffixes(s, suffixes)| <= SumLengths(suffixes)
  {
    if |suffixes| > 0 {
      var pre := suffixes[..|suffixes| - 1];
      RemoveSuffixesBound(s, pre);
      assert suffixes == pre + [suffixes[|suffixes| - 1]];
      FlattenLength(suffixes);
      FlattenLength(pre);
      FlattenAppend(pre, [suffixes[|suffixes| - 1]]);
      assert Flatten([suffixes[|suffixes| - 1]]) == suffixes[|suffixes| - 1];
    }
  }

  /** Each suffix is removed at most once: a name ending in `-js-js` loses only one `-js`. */
  lemma SuffixRemovedOnce(stem: string)
    ensures RemoveSuffixes(stem + "-js-js", Suffixes) == stem + "-js"
  {
    SuffixesInOrder(stem + "-js-js");
    DoubledJsLosesOne(stem);
    JsEndingKept(stem + "-js");
  }

  lemma DoubledJsLosesOne(stem: string)
    ensures RemoveSuffix(stem + "-js-js", "-js") == stem + "-js"
  {
    var s := stem + "-js-js";
    assert s[|s| - 3..] == "-js";
    assert s[..|s| - 3] == stem + "-js";
  }

  /** A text ending in `js` keeps its ending through the four later suffixes. */
  lemma JsEndingKept(t: string)
    requires |t| >= 2 && t[|t| - 1] == 's' && t[|t| - 2] == 'j'
    ensures RemoveSuffix(RemoveSuffix(RemoveSuffix(RemoveSuffix(t, "-jsx"), "-ts"), "-tsx"), "-react") == t
  {
    NotEndsWithAt(t, "-jsx", 0);
    NotEndsWithAt(t, "-ts", 1);
    NotEndsWithAt(t, "-tsx", 0);
    NotEndsWithAt(t, "-react", 0);
  }

  /** The five suffixes are tried in their listed order. */
  lemma SuffixesInOrder(s: string)
    ensures RemoveSuffixes(s, Suffixes) ==
      RemoveSuffix(RemoveSuffix(RemoveSuffix(RemoveSuffix(RemoveSuffix(s, "-js"), "-jsx"), "-ts"), "-tsx"), "-react")
  {
    assert Suffixes[..1][..0] == [];
    assert RemoveSuffixes(s, Suffixes[..1]) == RemoveSuffix(s, "-js");
    assert Suffixes[..2][..1] == Suffixes[..1];
    assert RemoveSuffixes(s, Suffixes[..2]) == RemoveSuffix(RemoveSuffixes(s, Suffixes[..1]), "-jsx");
    assert Suffixes[..3][..2] == Suffixes[..2];
    assert RemoveSuffixes(s, Suffixes[..3]) == RemoveSuffix(RemoveSuffixes(s, Suffixes[..2]), "-ts");
    assert Suffixes[..4][..3] == Suffixes[..3];
    assert RemoveSuffixes(s, Suffixes[..4]) == RemoveSuffix(RemoveSuffixes(s, Suffixes[..3]), "-tsx");
  }

  /** Lower-case pieces joined by `/` after an `@` are already lower-case. */
  lemma LowerScopedPath(scope: string, name: string, rest: string)
    requires Lower(scope) == scope && Lower(name) == name && Lower(rest) == rest
    ensures Lower("@" + scope + "/" + name + "/" + rest) == "@" + scope + "/" + name + "/" + rest
  {
    var head := "@" + scope;
    LowerNoUpper("@");
    LowerNoUpper("/");
    LowerAppend("@", scope);
    LowerAppend(head, "/");
    LowerAppend(head + "/", name);
    LowerAppend(head + "/" + name, "/");
    LowerAppend(head + "/" + name + "/", rest);
  }

  lemma UnscopedPath(scope: string, name: string, rest: string)
    requires '/' !in scope && '/' !in name && '/' !in rest
    ensures Unscoped("@" + scope + "/" + name + "/" + rest) == name
  {
    var head := "@" + scope;
    var tail := name + "/" + rest;
    var s := "@" + scope + "/" + name + "/" + rest;
    assert Split(s, '/') == [head, name, rest] by {
      assert s == head + "/" + tail;
      assert '/' !in head;
      SplitPiece(head, '/', tail);
      SplitOnce(name, '/', rest);
    }
    assert StartsWith(s, "@") by {
      assert s[0] == '@';
    }
  }

  /** A scoped package keeps the segment after the scope: `@scope/core/x` becomes `core`. */
  lemma ScopedPackageKeepsSecondSegment(scope: string, name: string, rest: string)
    requires '/' !in scope && '/' !in name && '/' !in rest
    requires Lower(scope) == scope && Lower(name) == name && Lower(rest) == rest
    ensures Unscoped(Lower("@" + scope + "/" + name + "/" + rest)) == name
  {
    LowerScopedPath(scope, name, rest);
    UnscopedPath(scope, name, rest);
  }

  /** A bare scope loses its `@`. */
  lemma BareScopeDropsAt(scope: string)
    requires '/' !in scope && Lower(scope) == scope
    ensures Unscoped(Lower("@" + scope)) == scope
  {
    var s := "@" + scope;
    assert Lower(s) == s by {
      LowerNoUpper("@");
      LowerAppend("@", scope);
    }
    SplitNoSeparator(s, '/');
    assert s[1..] == scope;
  }

  /** Browser APIs are found whatever the letter case of the name. */
  lemma BrowserApiCaseInsensitive(apiName: string)
    ensures CheckBrowserApi(apiName) == CheckBrowserApi(Lower(apiName))
    ensures CheckBrowserApi(apiName).Some? <==> Lower(apiName) in BrowserApis
  {
    LowerIdempotent(apiName);
  }

  /** A name in the table gets its table record whatever the registries answer. */
  lemma TableWinsOverRegistries(libraryName: string, npm: Registry, pypi: Registry, npm': Registry, pypi': Registry)
    requires libraryName in LibraryDocs
    ensures GetLibraryInfo(libraryName, npm, pypi) == GetLibraryInfo(libraryName, npm', pypi') == LibraryDocs[libraryName]
  {
  }

  /** npm is asked before PyPI: an npm answer makes the PyPI answer irrelevant. */
  lemma NpmBeforePypi(libraryName: string, npm: Registry, pypi: Registry, pypi': Registry)
    requires libraryName !in LibraryDocs && npm(libraryName).Some?
    ensures GetLibraryInfo(libraryName, npm, pypi) == GetLibraryInfo(libraryName, npm, pypi') == npm(libraryName).value
  {
  }

  /** PyPI is asked before the browser APIs: a PyPI answer is taken even for a browser API name. */
  lemma PypiBeforeBrowserApi(libraryName: string, npm: Registry, pypi: Registry)
    requires libraryName !in LibraryDocs && npm(libraryName).None? && pypi(libraryName).Some?
    ensures GetLibraryInfo(libraryName, npm, pypi) == pypi(libraryName).value
  {
  }

  /** With no table entry, no registry answer and no browser API, the record names the input and has no link. */
  lemma FallbackRecord(libraryName: string, npm: Registry, pypi: Registry)
    requires libraryName !in LibraryDocs && npm(libraryName).None? && pypi(libraryName).None?
    requires Lower(libraryName) !in BrowserApis
    ensures GetLibraryInfo(libraryName, npm, pypi).name == libraryName
    ensures GetLibraryInfo(libraryName, npm, pypi).link.None?
  {
  }

  lemma {:induction false} LibraryMapKeys(names: seq<string>, npm: Registry, pypi: Registry)
    ensures Keys(LibraryMap(names, npm, pypi)) == Dedup(names)
    ensures forall i :: 0 <= i < |LibraryMap(names, npm, pypi)| ==>
      LibraryMap(names, npm, pypi)[i].value == GetLibraryInfo(LibraryMap(names, npm, pypi)[i].key, npm, pypi)
  {
    if |names| > 0 {
      var pre := names[..|names| - 1];
      var n := names[|names| - 1];
      LibraryMapKeys(pre, npm, pypi);
      var d := LibraryMap(pre, npm, pypi);
      if n !in Keys(d) {
        var e := Entry(n, GetLibraryInfo(n, npm, pypi));
        KeysSnoc(d, e);
        forall i | 0 <= i < |d + [e]| ensures (d + [e])[i].value == GetLibraryInfo((d + [e])[i].key, npm, pypi) {
          if i < |d| {
            assert (d + [e])[i] == d[i];
          }
        }
      }
    }
  }

  /**
   * One record per distinct cleaned name, in first-seen order, each the
   * lookup result for that name.
   */
  lemma AnalyzedLibrariesSpec(files: seq<seq<string>>, npm: Registry, pypi: Registry)
    ensures var names := Dedup(CleanedNames(Flatten(files)));
      var libs := AnalyzedLibraries(files, npm, pypi);
      |libs| == |names| && forall i :: 0 <= i < |libs| ==> libs[i] == GetLibraryInfo(names[i], npm, pypi)
  {
    var d := LibraryMap(CleanedNames(Flatten(files)), npm, pypi);
    LibraryMapKeys(CleanedNames(Flatten(files)), npm, pypi);
    assert forall i :: 0 <= i < |d| ==> Keys(d)[i] == d[i].key;
  }

  /** Every cleaned name is a non-empty result of cleaning one of the imports. */
  lemma {:induction false} CleanedNamesFromImports(imports: seq<string>)
    ensures forall n :: n in CleanedNames(imports) ==> n != "" && exists i :: 0 <= i < |imports| && CleanName(imports[i]) == Some(n)
  {
    if |imports| > 0 {
      var pre := imports[..|imports| - 1];
      CleanedNamesFromImports(pre);
      forall n | n in CleanedNames(imports)
        ensures n != "" && exists i :: 0 <= i < |imports| && CleanName(imports[i]) == Some(n)
      {
        if n in CleanedNames(pre) {
          var i :| 0 <= i < |pre| && CleanName(pre[i]) == Some(n);
          assert imports[i] == pre[i];
        } else {
          assert CleanName(imports[|imports| - 1]) == Some(n);
        }
      }
    }
  }

  /** The five categories are always present, in order. */
  lemma CategoriesAlwaysPresent(libs: seq<LibraryInfo>)
    ensures Keys(Categorized(libs)) == CategoryKeys
  {
  }

  /** Every library lands in exactly the list of its category; the lists together hold every library once. */
  lemma {:induction false} CategoriesPartition(libs: seq<LibraryInfo>)
    ensures |InCategory(libs, "frontend")| + |InCategory(libs, "backend")| + |InCategory(libs, "utility")| +
      |InCategory(libs, "testing")| + |InCategory(libs, "build_tools")| == |libs|
  {
    if |libs| > 0 {
      CategoriesPartition(libs[..|libs| - 1]);
      var c := CategoryOf(libs[|libs| - 1]);
      assert c in CategoryKeys;
    }
  }

  lemma {:induction false} InCategoryMember(libs: seq<LibraryInfo>, category: string, lib: LibraryInfo)
    ensures lib in InCategory(libs, category) <==> lib in libs && CategoryOf(lib) == category
  {
    if |libs| > 0 {
      var pre := libs[..|libs| - 1];
      InCategoryMember(pre, category, lib);
      assert libs == pre + [libs[|libs| - 1]];
    }
  }

  /** A library is in a category's list exactly when that is its category, so in exactly one list. */
  lemma CategoryMembership(libs: seq<LibraryInfo>, lib: LibraryInfo)
    requires lib in libs
    ensures forall i :: 0 <= i < 5 ==> (lib in Categorized(libs)[i].value <==> CategoryKeys[i] == CategoryOf(lib))
  {
    forall i | 0 <= i < 5
      ensures lib in Categorized(libs)[i].value <==> CategoryKeys[i] == CategoryOf(lib)
    {
      InCategoryMember(libs, CategoryKeys[i], lib);
    }
  }

  /** Names are compared lower-cased: `React` is a frontend library. */
  lemma CategoryIgnoresCase(lib: LibraryInfo)
    requires lib.name == "React"
    ensures CategoryOf(lib) == "frontend"
  {
    var n := Lower(lib.name);
    assert n[0] == 'r' && n[1] == 'e' && n[2] == 'a' && n[3] == 'c' && n[4] == 't';
    assert n == "react";
    assert FrontendLibs[0] == n;
  }
}
