/**
 * The second library documentation agent,
 * backend/app/agents/real_library_doc_agent.py: library names from import
 * paths, the mapping / npm / PyPI / fallback chain, the per-file analysis and
 * the library summary. The registries' answers are inputs: for a package name,
 * the fields the agent reads from the response, or nothing when the request
 * fails or is not answered with status 200.
 */
module RealLibraryDoc {
  import opened Wrappers
  import opened Strings
  import opened Seqs

  /** A library record; `docs` may be missing from records handed to the summary. */
  datatype LibraryRecord = LibraryRecord(
    name: string, kind: string, description: string, link: string, docs: Option<string>, version: Option<string>)

  /** What the npm registry response yields: the latest version's description, if any, and the latest version tag. */
  datatype NpmPackage = NpmPackage(description: Option<string>, latestVersion: string)

  /** What the PyPI response yields: the summary, the documentation URL and the version, each if present. */
  datatype PypiPackage = PypiPackage(summary: Option<string>, documentation: Option<string>, version: Option<string>)

  function Mapped(name: string, description: string, link: string, docs: string): LibraryRecord
  {
    LibraryRecord(name, "npm", description, link, Some(docs), None)
  }

  const LibraryMappings: map<string, LibraryRecord> := map[
    "lodash" := Mapped("lodash", "A modern JavaScript utility library delivering modularity, performance & extras.", "https://lodash.com/", "https://lodash.com/docs"),
    "axios" := Mapped("axios", "Promise based HTTP client for the browser and node.js", "https://axios-http.com/", "https://axios-http.com/docs/intro"),
    "react" := Mapped("react", "A JavaScript library for building user interfaces", "https://reactjs.org/", "https://reactjs.org/docs/getting-started.html"),
    "react-dom" := Mapped("react-dom", "React package for working with the DOM", "https://reactjs.org/", "https://reactjs.org/docs/react-dom.html")]

  const UsageMap: map<string, string> := map[
    "lodash" := "Utility functions for data manipulation and functional programming",
    "axios" := "HTTP client for making API requests",
    "react" := "UI library for building component-based interfaces",
    "react-dom" := "React package for DOM manipulation",
    "express" := "Web application framework for Node.js",
    "moment" := "Date and time manipulation library",
    "jquery" := "DOM manipulation and AJAX requests",
    "bootstrap" := "CSS framework for responsive design"]

  const NpmPackageUrl: string := "https://www.npmjs.com/package/"
  const PypiProjectUrl: string := "https://pypi.org/project/"

  // ---------------------------------------------------------------------------
  // Library names

  /** `@scope/name/…` keeps `@scope/name`; anything else keeps its first `/` segment, which holds no `/`. */
  function ExtractLibraryName(importPath: string): (r: string)
    ensures !StartsWith(importPath, "@") ==> '/' !in r
  {
    var parts := Split(importPath, '/');
    if StartsWith(importPath, "@") && |parts| >= 2 then parts[0] + "/" + parts[1] else parts[0]
  }

  /** The non-empty library names of the import paths, in order. */
  function NamesOf(paths: seq<string>): seq<string>
  {
    if |paths| == 0 then []
    else
      var n := ExtractLibraryName(paths[|paths| - 1]);
      NamesOf(paths[..|paths| - 1]) + (if n != "" then [n] else [])
  }

  /** The captures of the three import patterns (`import … from '…'`, `import '…'`, `require('…')`), each in match order. */
  datatype ImportCaptures = ImportCaptures(fromImports: seq<string>, bareImports: seq<string>, requireImports: seq<string>)

  function ImportPaths(c: ImportCaptures): seq<string>
  {
    Flatten([c.fromImports, c.bareImports, c.requireImports])
  }

  function ExtractedLibraries(content: string, scan: string -> ImportCaptures): seq<string>
  {
    Dedup(NamesOf(ImportPaths(scan(content))))
  }

  lemma NamesOfSnoc(paths: seq<string>, p: string)
    ensures NamesOf(paths + [p]) == NamesOf(paths) + (if ExtractLibraryName(p) != "" then [ExtractLibraryName(p)] else [])
  {
    assert (paths + [p])[..|paths|] == paths;
  }

  lemma DedupSnoc(s: seq<string>, x: string)
    ensures Dedup(s + [x]) == if x in Dedup(s) then Dedup(s) else Dedup(s) + [x]
  {
    assert (s + [x])[..|s|] == s;
  }

  lemma AddNameStep(seen: seq<string>, path: string)
    ensures var n := ExtractLibraryName(path);
      var d := Dedup(NamesOf(seen));
      Dedup(NamesOf(seen + [path])) == if n != "" && n !in d then d + [n] else d
  {
    var n := ExtractLibraryName(path);
    var names := NamesOf(seen);
    NamesOfSnoc(seen, path);
    if n != "" {
      assert NamesOf(seen + [path]) == names + [n];
      DedupSnoc(names, n);
    } else {
      assert NamesOf(seen + [path]) == names;
    }
  }

  /** The library names of the captured paths, pattern by pattern, each listed once where first seen. */
  lemma AddNameAt(paths: seq<string>, i: nat)
    requires i < |paths|
    ensures var n := ExtractLibraryName(paths[i]);
      var d := Dedup(NamesOf(paths[..i]));
      Dedup(NamesOf(paths[..i + 1])) == if n != "" && n !in d then d + [n] else d
  {
    TakeSnoc(paths, i);
    AddNameStep(paths[..i], paths[i]);
  }

  method ExtractLibraries(content: string, scan: string -> ImportCaptures) returns (libraries: seq<string>)
    ensures libraries == ExtractedLibraries(content, scan)
  {
    var c := scan(content);
    var paths := ConcatAll([c.fromImports, c.bareImports, c.requireImports]);
    assert paths == ImportPaths(c);
    libraries := [];
    var i := 0;
    while i < |paths|
      invariant 0 <= i <= |paths|
      invariant libraries == Dedup(NamesOf(paths[..i]))
    {
      AddNameAt(paths, i);
      var libraryName := ExtractLibraryName(paths[i]);
      if libraryName != "" && libraryName !in libraries {
        libraries := libraries + [libraryName];
      }
      i := i + 1;
    }
    TakeAll(paths, []);
  }

  // ---------------------------------------------------------------------------
  // Library records

  function NpmRecord(name: string, pkg: NpmPackage): LibraryRecord
  {
    LibraryRecord(name, "npm", pkg.description.GetOr("NPM package: " + name),
      NpmPackageUrl + name, Some(NpmPackageUrl + name), Some(pkg.latestVersion))
  }

  function PypiRecord(name: string, pkg: PypiPackage): LibraryRecord
  {
    LibraryRecord(name, "pypi", pkg.summary.GetOr("PyPI package: " + name),
      PypiProjectUrl + name + "/", Some(pkg.documentation.GetOr(PypiProjectUrl + name + "/")), Some(pkg.version.GetOr("")))
  }

  function FallbackRecord(name: string): LibraryRecord
  {
    LibraryRecord(name, "unknown", "Library: " + name, NpmPackageUrl + name, Some(NpmPackageUrl + name), None)
  }

  /**
   * The mapping table first, then npm, then PyPI, then a record pointing at the
   * npm page; every record is named by the library asked about and has one of
   * three kinds.
   */
  function GetLibraryInfo(name: string, npm: string -> Option<NpmPackage>, pypi: string -> Option<PypiPackage>): (r: LibraryRecord)
    ensures r.name == name
    ensures r.kind in {"npm", "pypi", "unknown"}
  {
    if name in LibraryMappings then LibraryMappings[name]
    else if npm(name).Some? then NpmRecord(name, npm(name).value)
    else if pypi(name).Some? then PypiRecord(name, pypi(name).value)
    else FallbackRecord(name)
  }

  function AnalyzedLibraries(libraries: seq<string>, npm: string -> Option<NpmPackage>, pypi: string -> Option<PypiPackage>): seq<LibraryRecord>
  {
    seq(|libraries|, i requires 0 <= i < |libraries| => GetLibraryInfo(libraries[i], npm, pypi))
  }

  lemma AnalyzedStep(libraries: seq<string>, i: nat, npm: string -> Option<NpmPackage>, pypi: string -> Option<PypiPackage>)
    requires i < |libraries|
    ensures AnalyzedLibraries(libraries[..i + 1], npm, pypi) == AnalyzedLibraries(libraries[..i], npm, pypi) + [GetLibraryInfo(libraries[i], npm, pypi)]
  {
    var a := AnalyzedLibraries(libraries[..i + 1], npm, pypi);
    var b := AnalyzedLibraries(libraries[..i], npm, pypi) + [GetLibraryInfo(libraries[i], npm, pypi)];
    assert |a| == |b|;
    forall k | 0 <= k < |a|
      ensures a[k] == b[k]
    {
      if k < i {
        assert libraries[..i + 1][k] == libraries[..i][k];
      }
    }
  }

  /** One record per extracted library, in order. */
  method AnalyzeLibraries(content: string, scan: string -> ImportCaptures, npm: string -> Option<NpmPackage>, pypi: string -> Option<PypiPackage>)
    returns (analyzed: seq<LibraryRecord>)
    ensures analyzed == AnalyzedLibraries(ExtractedLibraries(content, scan), npm, pypi)
  {
    var libraries := ExtractLibraries(content, scan);
    analyzed := [];
    var i := 0;
    while i < |libraries|
      invariant 0 <= i <= |libraries|
      invariant analyzed == AnalyzedLibraries(libraries[..i], npm, pypi)
    {
      var info := GetLibraryInfo(libraries[i], npm, pypi);
      AnalyzedStep(libraries, i, npm, pypi);
      analyzed := analyzed + [info];
      i := i + 1;
    }
    TakeAll(libraries, []);
  }

  // ---------------------------------------------------------------------------
  // Summary

  datatype SummaryEntry = SummaryEntry(name: string, usage: string, link: string, docs: string, description: string)

  /** The usage table, with the default `Library for {name} functionality`, which names the library. */
  function DetermineUsage(name: string): (r: string)
    ensures name !in UsageMap ==> Contains(r, name)
  {
    if name in UsageMap then UsageMap[name]
    else
      var u := "Library for " + name + " functionality";
      assert u[12..] == name + " functionality";
      ContainsAt(u, 12, name);
      u
  }

  function SummaryOf(lib: LibraryRecord): SummaryEntry
  {
    SummaryEntry(lib.name, DetermineUsage(lib.name), lib.link, lib.docs.GetOr(lib.link), lib.description)
  }

  function LibrarySummary(libraries: seq<LibraryRecord>): seq<SummaryEntry>
  {
    seq(|libraries|, i requires 0 <= i < |libraries| => SummaryOf(libraries[i]))
  }

  lemma SummaryStep(libraries: seq<LibraryRecord>, i: nat)
    requires i < |libraries|
    ensures LibrarySummary(libraries[..i + 1]) == LibrarySummary(libraries[..i]) + [SummaryOf(libraries[i])]
  {
    var a := LibrarySummary(libraries[..i + 1]);
    var b := LibrarySummary(libraries[..i]) + [SummaryOf(libraries[i])];
    assert |a| == |b|;
    forall k | 0 <= k < |a|
      ensures a[k] == b[k]
    {
      if k < i {
        assert libraries[..i + 1][k] == libraries[..i][k];
      }
    }
  }

  method GetLibrarySummary(libraries: seq<LibraryRecord>) returns (summary: seq<SummaryEntry>)
    ensures summary == LibrarySummary(libraries)
  {
    summary := [];
    var i := 0;
    while i < |libraries|
      invariant 0 <= i <= |libraries|
      invariant summary == LibrarySummary(libraries[..i])
    {
      var lib := libraries[i];
      var entry := SummaryEntry(lib.name, DetermineUsage(lib.name), lib.link,
        if lib.docs.Some? then lib.docs.value else lib.link, lib.description);
      SummaryStep(libraries, i);
      summary := summary + [entry];
      i := i + 1;
    }
    TakeAll(libraries, []);
  }

  // ---------------------------------------------------------------------------
  // Properties

  /** A scoped path keeps scope and package; a bare scope is kept whole; any other path keeps its first segment. */
  lemma ScopedLibraryName(scope: string, name: string, rest: string)
    requires '/' !in scope && '/' !in name && '/' !in rest
    ensures ExtractLibraryName("@" + scope + "/" + name + "/" + rest) == "@" + scope + "/" + name
    ensures ExtractLibraryName("@" + scope) == "@" + scope
  {
    var head := "@" + scope;
    assert '/' !in head by {
      assert forall i :: 0 < i < |head| ==> head[i] == scope[i - 1];
    }
    var parts := [head, name, rest];
    JoinCons(name, [rest], "/");
    JoinCons(head, [name, rest], "/");
    assert Join(parts, "/") == "@" + scope + "/" + name + "/" + rest;
    SplitJoin(parts, '/');
    SplitNoSeparator(head, '/');
    assert head[..1] == "@";
  }

  /** An unscoped path keeps the text before its first `/`. */
  lemma UnscopedLibraryName(importPath: string)
    requires !StartsWith(importPath, "@")
    ensures ExtractLibraryName(importPath) == Before(importPath, '/')
  {
  }

  /** A scoped path with a package segment names at least the scope: it starts with the text before its first `/`. */
  lemma LibraryNameStartsWithFirstSegment(importPath: string)
    ensures StartsWith(ExtractLibraryName(importPath), Before(importPath, '/'))
  {
  }

  lemma {:induction false} NamesOfNonEmpty(paths: seq<string>)
    ensures forall n :: n in NamesOf(paths) ==> n != "" && exists i :: 0 <= i < |paths| && ExtractLibraryName(paths[i]) == n
    ensures forall i :: 0 <= i < |paths| && ExtractLibraryName(paths[i]) != "" ==> ExtractLibraryName(paths[i]) in NamesOf(paths)
  {
    if |paths| > 0 {
      var pre := paths[..|paths| - 1];
      NamesOfNonEmpty(pre);
      assert paths == pre + [paths[|paths| - 1]];
      forall n | n in NamesOf(paths)
        ensures n != "" && exists i :: 0 <= i < |paths| && ExtractLibraryName(paths[i]) == n
      {
        if n in NamesOf(pre) {
          var i :| 0 <= i < |pre| && ExtractLibraryName(pre[i]) == n;
          assert paths[i] == pre[i];
        }
      }
      forall i | 0 <= i < |paths| && ExtractLibraryName(paths[i]) != ""
        ensures ExtractLibraryName(paths[i]) in NamesOf(paths)
      {
        if i < |pre| {
          assert paths[i] == pre[i];
        }
      }
    }
  }

  /**
   * The extracted libraries have no duplicates and no empty names, and are
   * exactly the non-empty names of the captured paths.
   */
  lemma ExtractedLibrariesSpec(content: string, scan: string -> ImportCaptures)
    ensures var libs := ExtractedLibraries(content, scan);
      var paths := ImportPaths(scan(content));
      NoDup(libs) && "" !in libs &&
      forall n :: n in libs <==> n != "" && exists i :: 0 <= i < |paths| && ExtractLibraryName(paths[i]) == n
  {
    var paths := ImportPaths(scan(content));
    NamesOfNonEmpty(paths);
    var libs := ExtractedLibraries(content, scan);
    forall n
      ensures n in libs <==> n != "" && exists i :: 0 <= i < |paths| && ExtractLibraryName(paths[i]) == n
    {
      if n in libs {
        var k :| 0 <= k < |libs| && libs[k] == n;
        assert libs[k] in NamesOf(paths);
      }
      if n != "" && exists i :: 0 <= i < |paths| && ExtractLibraryName(paths[i]) == n {
        var i :| 0 <= i < |paths| && ExtractLibraryName(paths[i]) == n;
        var ns := NamesOf(paths);
        var k :| 0 <= k < |ns| && ns[k] == n;
        assert ns[k] in libs;
      }
    }
  }

  /** The mapping table wins whatever the registries answer. */
  lemma MappingWins(name: string, npm: string -> Option<NpmPackage>, pypi: string -> Option<PypiPackage>,
                    npm': string -> Option<NpmPackage>, pypi': string -> Option<PypiPackage>)
    requires name in LibraryMappings
    ensures GetLibraryInfo(name, npm, pypi) == GetLibraryInfo(name, npm', pypi') == LibraryMappings[name]
  {
  }

  /** Unknown everywhere: type `unknown`, with link and docs the npm package page. */
  lemma FallbackPointsAtNpm(name: string, npm: string -> Option<NpmPackage>, pypi: string -> Option<PypiPackage>)
    requires name !in LibraryMappings && npm(name).None? && pypi(name).None?
    ensures var r := GetLibraryInfo(name, npm, pypi);
      r.kind == "unknown" && r.link == NpmPackageUrl + name && r.docs == Some(r.link)
  {
  }

  /** Every record produced here carries docs, and only PyPI records may point elsewhere than the npm page or the table. */
  lemma LibraryInfoLinks(name: string, npm: string -> Option<NpmPackage>, pypi: string -> Option<PypiPackage>)
    ensures var r := GetLibraryInfo(name, npm, pypi);
      r.docs.Some? &&
      (r.kind != "pypi" && name !in LibraryMappings ==> r.link == NpmPackageUrl + name && r.docs == Some(r.link))
  {
  }

  /** The analysis yields one record per extracted library, in order and under the same name. */
  lemma AnalyzedLibrariesNames(libraries: seq<string>, npm: string -> Option<NpmPackage>, pypi: string -> Option<PypiPackage>)
    ensures var rs := AnalyzedLibraries(libraries, npm, pypi);
      |rs| == |libraries| && forall i :: 0 <= i < |rs| ==> rs[i].name == libraries[i]
  {
  }

  /** The summary keeps length and name order; docs default to the link. */
  lemma LibrarySummarySpec(libraries: seq<LibraryRecord>)
    ensures var s := LibrarySummary(libraries);
      |s| == |libraries| &&
      (forall i :: 0 <= i < |s| ==> s[i].name == libraries[i].name && s[i].link == libraries[i].link) &&
      (forall i :: 0 <= i < |s| && libraries[i].docs.None? ==> s[i].docs == s[i].link)
  {
  }
}
