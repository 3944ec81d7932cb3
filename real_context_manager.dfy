/**
 * The status-tracking context manager of
 * backend/app/agents/real_context_manager_agent.py: per-upload status records,
 * stored file contents, relative-import resolution and the local import edges,
 * the name-to-filenames usage map, the space-joined project summary and the
 * complexity totals.
 */
module RealContextManager {
  import opened Wrappers
  import opened Strings
  import opened Seqs
  import opened Dicts

  /** One upload's status record; the stored ones always carry a timestamp, the `not_found` default has none. */
  datatype StatusRecord = StatusRecord(status: string, progress: int, message: string, timestamp: Option<string>)

  const NotFound := StatusRecord("not_found", 0, "Upload not found", None)

  /**
   * The fields of a file record this agent reads: the filename, the `name` of
   * each function (`""` when missing) and the `name` of each external library
   * (`""` when missing).
   */
  datatype FileInfo = FileInfo(filename: string, functions: seq<string>, externalLibraries: seq<string>)

  /** One `{from, to, type, description}` edge. */
  datatype Edge = Edge(from: string, to: string, kind: string, description: string)

  /**
   * The captures of the three import patterns (`import … from '…'`, bare
   * `import '…'`, `require('…')`) over one content string, in match order.
   */
  datatype ImportCaptures = ImportCaptures(fromClauses: seq<string>, bareImports: seq<string>, requireCalls: seq<string>)

  /** Whether some file record's text mentions `react`, `search` or `debounce`. */
  datatype ContentMentions = ContentMentions(react: bool, search: bool, debounce: bool)

  datatype ComplexityMetrics = ComplexityMetrics(
    totalFiles: nat,
    totalLines: nat,
    totalFunctions: nat,
    totalImports: nat,
    averageLinesPerFile: real,
    averageFunctionsPerFile: real)

  datatype Totals = Totals(lines: nat, functions: nat, imports: nat)

  // ---------------------------------------------------------------------------
  // Import-path resolution

  /** `name`, with `.js` appended unless it already ends in `.js`. */
  function WithJs(name: string): (r: string)
    ensures EndsWith(r, ".js")
  {
    if EndsWith(name, ".js") then name else name + ".js"
  }

  /** The `/`-components of a path without its last one. */
  function Directory(path: string): seq<string>
  {
    var parts := Split(path, '/');
    parts[..|parts| - 1]
  }

  predicate IsLocalImport(importPath: string)
  {
    StartsWith(importPath, "./") || StartsWith(importPath, "../")
  }

  /**
   * `_resolve_import_path`: `./name` is put in the current file's directory,
   * `../name` two components up; `None` for anything else, or for `../` when
   * the current path has a single component.
   */
  function ResolveImportPath(current: string, importPath: string): (r: Option<string>)
    ensures !IsLocalImport(importPath) ==> r == None
  {
    if StartsWith(importPath, "./") then
      var baseDir := Join(Directory(current), "/");
      var filename := WithJs(importPath[2..]);
      Some(if baseDir != "" then baseDir + "/" + filename else filename)
    else if StartsWith(importPath, "../") then
      var parts := Split(current, '/');
      if |parts| > 1 then Some(Join(parts[..|parts| - 2] + [WithJs(importPath[3..])], "/"))
      else None
    else None
  }

  // ---------------------------------------------------------------------------
  // Specification of the edges

  function EdgeOf(from: string, to: string): Edge
  {
    Edge(from, to, "import", from + " imports " + to)
  }

  /** All captures of one content string, pattern after pattern. */
  function AllCaptures(c: ImportCaptures): seq<string>
  {
    Flatten([c.fromClauses, c.bareImports, c.requireCalls])
  }

  /** The edge one import of `filename` yields: a local import resolving to a stored file. */
  function EdgeStep(filename: string, importPath: string, files: Dict<string>): seq<Edge>
  {
    if IsLocalImport(importPath) then
      var r := ResolveImportPath(filename, importPath);
      if r.Some? && r.value in Keys(files) then [EdgeOf(filename, r.value)] else []
    else []
  }

  /** `importPath` is a local import of `filename` that resolves to `target`. */
  predicate ResolvesTo(filename: string, importPath: string, target: string)
  {
    IsLocalImport(importPath) && ResolveImportPath(filename, importPath) == Some(target)
  }

  function EdgesFor(filename: string, imports: seq<string>, files: Dict<string>): seq<Edge>
  {
    if |imports| == 0 then []
    else EdgesFor(filename, imports[..|imports| - 1], files) + EdgeStep(filename, imports[|imports| - 1], files)
  }

  /** The edges of the stored files of `entries`, in storage order, checked against all stored files. */
  function CrossReferenceEdges(entries: Dict<string>, files: Dict<string>, scan: string -> ImportCaptures): seq<Edge>
  {
    if |entries| == 0 then []
    else
      var e := entries[|entries| - 1];
      CrossReferenceEdges(entries[..|entries| - 1], files, scan) + EdgesFor(e.key, AllCaptures(scan(e.value)), files)
  }

  // ---------------------------------------------------------------------------
  // Specification of the usage map

  /** The `(name, filename)` pairs of one file, skipping empty names. */
  function NameEvents(filename: string, names: seq<string>): seq<(string, string)>
  {
    if |names| == 0 then []
    else
      var last := names[|names| - 1];
      NameEvents(filename, names[..|names| - 1]) + (if last != "" then [(last, filename)] else [])
  }

  function BatchNameEvents(files: seq<FileInfo>): seq<(string, string)>
  {
    if |files| == 0 then []
    else
      var f := files[|files| - 1];
      BatchNameEvents(files[..|files| - 1]) + NameEvents(f.filename, f.functions)
  }

  function UsageMap(files: seq<FileInfo>): Dict<seq<string>>
  {
    Group(BatchNameEvents(files))
  }

  /** Reference definition: a file's name once per function it defines under `name`, file by file. */
  function FilesDefining(files: seq<FileInfo>, name: string): seq<string>
  {
    if |files| == 0 then []
    else
      var f := files[|files| - 1];
      FilesDefining(files[..|files| - 1], name) + seq(Occurrences(f.functions, name), _ => f.filename)
  }

  // ---------------------------------------------------------------------------
  // Specification of the summary

  /** `filename.split('.')[-1]`. */
  function Extension(filename: string): string
  {
    After(filename, '.')
  }

  function Extensions(files: seq<FileInfo>): seq<string>
  {
    seq(|files|, i requires 0 <= i < |files| => Extension(files[i].filename))
  }

  function FunctionTotal(files: seq<FileInfo>): nat
  {
    if |files| == 0 then 0 else FunctionTotal(files[..|files| - 1]) + |files[|files| - 1].functions|
  }

  function LibrarySet(files: seq<FileInfo>): set<string>
  {
    if |files| == 0 then {} else LibrarySet(files[..|files| - 1]) + Elements(files[|files| - 1].externalLibraries)
  }

  /** The first clause: the count of `js` files (or `JavaScript`) for a single file, else the file count. */
  function SizeClause(fileCount: nat, types: Dict<nat>): string
  {
    if fileCount == 1 then
      "Single " + (match Lookup(types, "js") case Some(n) => NatToString(n) case None => "JavaScript") + " file"
    else NatToString(fileCount) + " files"
  }

  function Optional(present: bool, clause: string): seq<string>
  {
    if present then [clause] else []
  }

  function FunctionsClause(n: nat): string
  {
    "with " + NatToString(n) + " functions"
  }

  function LibrariesClause(n: nat): string
  {
    "using " + NatToString(n) + " external libraries"
  }

  const ReactClause := "React application"
  const SearchClause := "with search functionality"
  const DebounceClause := "including debounced input handling"

  function SummaryClauses(fileCount: nat, types: Dict<nat>, functions: nat, libraries: nat, mentions: ContentMentions): seq<string>
  {
    [SizeClause(fileCount, types)]
    + Optional(functions > 0, FunctionsClause(functions))
    + Optional(libraries > 0, LibrariesClause(libraries))
    + Optional(mentions.react, ReactClause)
    + Optional(mentions.search, SearchClause)
    + Optional(mentions.debounce, DebounceClause)
  }

  function SummaryParts(files: seq<FileInfo>, mentions: ContentMentions): seq<string>
  {
    SummaryClauses(|files|, CountAll(Extensions(files)), FunctionTotal(files), |LibrarySet(files)|, mentions)
  }

  function ProjectSummary(files: seq<FileInfo>, mentions: ContentMentions): string
  {
    if |files| == 0 then "No files analyzed" else Join(SummaryParts(files, mentions), " ")
  }

  // ---------------------------------------------------------------------------
  // Specification of the complexity totals

  /** The stored content of a file, `""` when none is stored. */
  function ContentOf(contents: Dict<string>, filename: string): string
  {
    Lookup(contents, filename).GetOr("")
  }

  /** Lines, functions and import tokens over the files whose stored content is non-empty. */
  function ComplexityTotals(files: seq<FileInfo>, contents: Dict<string>, countImports: string -> nat): Totals
  {
    if |files| == 0 then Totals(0, 0, 0)
    else
      var t := ComplexityTotals(files[..|files| - 1], contents, countImports);
      var f := files[|files| - 1];
      var c := ContentOf(contents, f.filename);
      if c != "" then Totals(t.lines + |Split(c, '\n')|, t.functions + |f.functions|, t.imports + countImports(c))
      else t
  }

  // ---------------------------------------------------------------------------
  // The agent

  class RealContextManagerAgent {
    var analysisStatus: map<string, StatusRecord>
    var fileContents: Dict<string>
    var crossReferences: seq<Edge>
    var projectSummary: string
    var externalLibraries: seq<string>

    constructor ()
      ensures analysisStatus == map[] && fileContents == [] && crossReferences == []
      ensures projectSummary == "" && externalLibraries == []
    {
      analysisStatus := map[];
      fileContents := [];
      crossReferences := [];
      projectSummary := "";
      externalLibraries := [];
    }

    /** Creates or overwrites the upload's record with the given status, progress, message and time `now`. */
    method UpdateStatus(uploadId: string, status: string, now: string, progress: int := 0, message: string := "")
      modifies this`analysisStatus
      ensures analysisStatus == old(analysisStatus)[uploadId := StatusRecord(status, progress, message, Some(now))]
    {
      analysisStatus := analysisStatus[uploadId := StatusRecord(status, progress, message, Some(now))];
    }

    /** The upload's record, or the `not_found` default. */
    function GetStatus(uploadId: string): (r: StatusRecord)
      reads this
      ensures uploadId in analysisStatus ==> r == analysisStatus[uploadId]
      ensures uploadId !in analysisStatus ==> r == NotFound
    {
      if uploadId in analysisStatus then analysisStatus[uploadId] else NotFound
    }

    /** Stores (or replaces, keeping its place) the content of one file. */
    method StoreFileContent(filename: string, content: string)
      modifies this`fileContents
      ensures fileContents == Put(old(fileContents), filename, content)
    {
      fileContents := Put(fileContents, filename, content);
    }

    /** Edges for every local import that resolves to a stored file; the field is replaced by the result. */
    method FindCrossReferences(scan: string -> ImportCaptures) returns (refs: seq<Edge>)
      modifies this`crossReferences
      ensures refs == CrossReferenceEdges(fileContents, fileContents, scan)
      ensures crossReferences == refs
    {
      refs := [];
      var i := 0;
      while i < |fileContents|
        invariant 0 <= i <= |fileContents|
        invariant refs == CrossReferenceEdges(fileContents[..i], fileContents, scan)
      {
        var edges := EdgesOfFile(fileContents[i].key, scan(fileContents[i].value), fileContents);
        assert fileContents[..i + 1][..i] == fileContents[..i];
        refs := refs + edges;
        i := i + 1;
      }
      assert fileContents[..i] == fileContents;
      crossReferences := refs;
    }

    /** Function name to the filenames defining it, in order and with repeats; empty names are skipped. */
    method BuildFunctionUsageMap(files: seq<FileInfo>) returns (usage: Dict<seq<string>>)
      ensures usage == UsageMap(files)
    {
      usage := [];
      var i := 0;
      while i < |files|
        invariant 0 <= i <= |files|
        invariant usage == Group(BatchNameEvents(files[..i]))
      {
        var f := files[i];
        ghost var before := BatchNameEvents(files[..i]);
        var j := 0;
        assert f.functions[..0] == [];
        assert before + NameEvents(f.filename, f.functions[..0]) == before;
        while j < |f.functions|
          invariant 0 <= j <= |f.functions|
          invariant usage == Group(before + NameEvents(f.filename, f.functions[..j]))
        {
          var name := f.functions[j];
          assert f.functions[..j + 1][..j] == f.functions[..j];
          if name != "" {
            assert before + NameEvents(f.filename, f.functions[..j + 1]) == (before + NameEvents(f.filename, f.functions[..j])) + [(name, f.filename)];
            GroupSnoc(before + NameEvents(f.filename, f.functions[..j]), (name, f.filename));
            usage := Append(usage, name, f.filename);
          } else {
            assert NameEvents(f.filename, f.functions[..j + 1]) == NameEvents(f.filename, f.functions[..j]);
          }
          j := j + 1;
        }
        assert f.functions[..j] == f.functions;
        assert files[..i + 1][..i] == files[..i];
        i := i + 1;
      }
      assert files[..i] == files;
    }

    /** The summary sentence; on an empty batch it is returned without being stored. */
    method GenerateProjectSummary(files: seq<FileInfo>, mentions: ContentMentions) returns (summary: string)
      modifies this`projectSummary
      ensures summary == ProjectSummary(files, mentions)
      ensures projectSummary == if |files| == 0 then old(projectSummary) else summary
    {
      if |files| == 0 {
        return "No files analyzed";
      }
      var types, totalFunctions, libraries := TallySummary(files);
      var parts := SummaryClausesOf(|files|, types, totalFunctions, |libraries|, mentions);
      summary := Join(parts, " ");
      projectSummary := summary;
    }

    /**
     * Line, function and import-token totals over the files with non-empty stored
     * content; `countImports` stands for the number of `import`/`require(` tokens.
     */
    method AnalyzeCodeComplexity(files: seq<FileInfo>, countImports: string -> nat) returns (metrics: ComplexityMetrics)
      ensures metrics.totalFiles == |files|
      ensures Totals(metrics.totalLines, metrics.totalFunctions, metrics.totalImports) == ComplexityTotals(files, fileContents, countImports)
      ensures |files| == 0 ==> metrics.averageLinesPerFile == 0.0 && metrics.averageFunctionsPerFile == 0.0
      ensures |files| > 0 ==> metrics.averageLinesPerFile == (metrics.totalLines as real) / (|files| as real)
      ensures |files| > 0 ==> metrics.averageFunctionsPerFile == (metrics.totalFunctions as real) / (|files| as real)
    {
      var totalLines: nat := 0;
      var totalFunctions: nat := 0;
      var totalImports: nat := 0;
      var i := 0;
      while i < |files|
        invariant 0 <= i <= |files|
        invariant Totals(totalLines, totalFunctions, totalImports) == ComplexityTotals(files[..i], fileContents, countImports)
      {
        assert files[..i + 1][..i] == files[..i];
        var content := ContentOf(fileContents, files[i].filename);
        if content != "" {
          totalLines := totalLines + |Split(content, '\n')|;
          totalFunctions := totalFunctions + |files[i].functions|;
          totalImports := totalImports + countImports(content);
        }
        i := i + 1;
      }
      assert files[..i] == files;
      var averageLines := 0.0;
      var averageFunctions := 0.0;
      if |files| > 0 {
        averageLines := (totalLines as real) / (|files| as real);
        averageFunctions := (totalFunctions as real) / (|files| as real);
      }
      metrics := ComplexityMetrics(|files|, totalLines, totalFunctions, totalImports, averageLines, averageFunctions);
    }
  }

  /** The edges of one stored file: its captures pattern after pattern, match after match. */
  method EdgesOfFile(filename: string, captures: ImportCaptures, files: Dict<string>) returns (edges: seq<Edge>)
    ensures edges == EdgesFor(filename, AllCaptures(captures), files)
  {
    var patterns := [captures.fromClauses, captures.bareImports, captures.requireCalls];
    edges := [];
    var p := 0;
    while p < 3
      invariant 0 <= p <= 3
      invariant edges == EdgesFor(filename, Flatten(patterns[..p]), files)
    {
      var more := EdgesOfMatches(filename, patterns[p], files);
      EdgesForAppend(filename, Flatten(patterns[..p]), patterns[p], files);
      assert patterns[..p + 1] == patterns[..p] + [patterns[p]];
      FlattenAppend(patterns[..p], [patterns[p]]);
      assert Flatten([patterns[p]]) == patterns[p];
      edges := edges + more;
      p := p + 1;
    }
    assert patterns[..3] == patterns;
  }

  /** The edges of the matches of one pattern, in match order. */
  method EdgesOfMatches(filename: string, matches: seq<string>, files: Dict<string>) returns (edges: seq<Edge>)
    ensures edges == EdgesFor(filename, matches, files)
  {
    edges := [];
    var m := 0;
    while m < |matches|
      invariant 0 <= m <= |matches|
      invariant edges == EdgesFor(filename, matches[..m], files)
    {
      var importPath := matches[m];
      assert matches[..m + 1][..m] == matches[..m];
      if IsLocalImport(importPath) {
        var importedFile := ResolveImportPath(filename, importPath);
        if importedFile.Some? && importedFile.value in Keys(files) {
          edges := edges + [EdgeOf(filename, importedFile.value)];
        }
      }
      m := m + 1;
    }
    assert matches[..m] == matches;
  }

  /** The summary clauses in their fixed order, each only when its condition holds. */
  method SummaryClausesOf(fileCount: nat, types: Dict<nat>, totalFunctions: nat, libraryCount: nat, mentions: ContentMentions)
    returns (parts: seq<string>)
    ensures parts == SummaryClauses(fileCount, types, totalFunctions, libraryCount, mentions)
  {
    parts := [];
    if fileCount == 1 {
      var jsCount := Lookup(types, "js");
      parts := parts + ["Single " + (if jsCount.Some? then NatToString(jsCount.value) else "JavaScript") + " file"];
    } else {
      parts := parts + [NatToString(fileCount) + " files"];
    }
    assert parts == [SizeClause(fileCount, types)];
    if totalFunctions > 0 {
      parts := parts + [FunctionsClause(totalFunctions)];
    }
    ghost var expected := [SizeClause(fileCount, types)] + Optional(totalFunctions > 0, FunctionsClause(totalFunctions));
    assert parts == expected;
    if libraryCount > 0 {
      parts := parts + [LibrariesClause(libraryCount)];
    }
    expected := expected + Optional(libraryCount > 0, LibrariesClause(libraryCount));
    assert parts == expected;
    if mentions.react {
      parts := parts + [ReactClause];
    }
    expected := expected + Optional(mentions.react, ReactClause);
    assert parts == expected;
    if mentions.search {
      parts := parts + [SearchClause];
    }
    expected := expected + Optional(mentions.search, SearchClause);
    assert parts == expected;
    if mentions.debounce {
      parts := parts + [DebounceClause];
    }
  }

  /** The extension counter, function total and library-name set of the summary. */
  lemma TallyStep(files: seq<FileInfo>, i: nat)
    requires i < |files|
    ensures Extensions(files)[..i + 1] == Extensions(files)[..i] + [Extension(files[i].filename)]
    ensures FunctionTotal(files[..i + 1]) == FunctionTotal(files[..i]) + |files[i].functions|
    ensures LibrarySet(files[..i + 1]) == LibrarySet(files[..i]) + Elements(files[i].externalLibraries)
  {
    assert files[..i + 1][..i] == files[..i];
    TakeSnoc(Extensions(files), i);
  }

  /** Adds each of `names` to the set, one at a time. */
  method AddNames(libraries: set<string>, names: seq<string>) returns (r: set<string>)
    ensures r == libraries + Elements(names)
  {
    r := libraries;
    var k := 0;
    TakeAll(names, []);
    while k < |names|
      invariant 0 <= k <= |names|
      invariant r == libraries + Elements(names[..k])
    {
      TakeSnoc(names, k);
      ElementsSnoc(names[..k], names[k]);
      r := r + {names[k]};
      k := k + 1;
    }
  }

  method TallySummary(files: seq<FileInfo>) returns (types: Dict<nat>, totalFunctions: nat, libraries: set<string>)
    ensures types == CountAll(Extensions(files))
    ensures totalFunctions == FunctionTotal(files)
    ensures libraries == LibrarySet(files)
  {
    types := [];
    totalFunctions := 0;
    libraries := {};
    var i := 0;
    while i < |files|
      invariant 0 <= i <= |files|
      invariant types == CountAll(Extensions(files)[..i])
      invariant totalFunctions == FunctionTotal(files[..i])
      invariant libraries == LibrarySet(files[..i])
    {
      var f := files[i];
      TallyStep(files, i);
      CountAllSnoc(Extensions(files)[..i], Extension(f.filename));
      types := Bump(types, Extension(f.filename));
      totalFunctions := totalFunctions + |f.functions|;
      libraries := AddNames(libraries, f.externalLibraries);
      i := i + 1;
    }
    TakeAll(files, []);
    TakeAll(Extensions(files), []);
  }

  // ---------------------------------------------------------------------------
  // Properties of the resolution

  /** Every resolved path ends in `.js`, so `x.jsx` resolves to `x.jsx.js`. */
  lemma ResolvedEndsWithJs(current: string, importPath: string)
    ensures var r := ResolveImportPath(current, importPath); r.Some? ==> EndsWith(r.value, ".js")
  {
    if StartsWith(importPath, "./") {
      var baseDir := Join(Directory(current), "/");
      EndsWithAppend(baseDir + "/", WithJs(importPath[2..]), ".js");
    } else if StartsWith(importPath, "../") {
      var parts := Split(current, '/');
      if |parts| > 1 {
        var up := parts[..|parts| - 2];
        var f := WithJs(importPath[3..]);
        if |up| == 0 {
          assert up + [f] == [f];
        } else {
          JoinSnoc(up, f, "/");
          EndsWithAppend(Join(up, "/") + "/", f, ".js");
        }
      }
    }
  }

  /**
   * `./name` keeps the current file's directory components and appends those of
   * the name (with `.js`); a current file without `/` gives the name alone.
   */
  lemma ResolveSameDirectory(current: string, name: string)
    ensures var r := ResolveImportPath(current, "./" + name);
      r.Some? &&
      ('/' !in current ==> r.value == WithJs(name)) &&
      (Join(Directory(current), "/") != "" ==> Split(r.value, '/') == Directory(current) + Split(WithJs(name), '/'))
  {
    var imp := "./" + name;
    assert StartsWith(imp, "./");
    assert imp[2..] == name;
    var dirs := Directory(current);
    if '/' !in current {
      SplitNoSeparator(current, '/');
      assert dirs == [];
    }
    if Join(dirs, "/") != "" {
      assert |dirs| >= 1;
      SplitJoinAppend(dirs, '/', WithJs(name));
    }
  }

  /**
   * `../name` needs at least two components in the current path (otherwise
   * `None`); the last two are dropped and the name's components appended. Only
   * one `../` is stripped, so further ones stay in the result.
   */
  lemma ResolveParentDirectory(current: string, name: string)
    ensures var r := ResolveImportPath(current, "../" + name);
      var parts := Split(current, '/');
      (|parts| < 2 <==> r.None?) &&
      (r.Some? ==> Split(r.value, '/') == parts[..|parts| - 2] + Split(WithJs(name), '/'))
  {
    var imp := "../" + name;
    assert !StartsWith(imp, "./") by {
      assert imp[1] == '.';
    }
    assert StartsWith(imp, "../");
    assert imp[3..] == name;
    var parts := Split(current, '/');
    if |parts| > 1 {
      var up := parts[..|parts| - 2];
      var f := WithJs(name);
      if |up| == 0 {
        assert up + [f] == [f];
      } else {
        JoinSnoc(up, f, "/");
        SplitJoinAppend(up, '/', f);
      }
    }
  }

  /** A name whose last character is not `s` gets `.js` appended. */
  lemma WithJsAppends(name: string)
    requires |name| > 0 && name[|name| - 1] != 's'
    ensures WithJs(name) == name + ".js"
  {
    NotEndsWithAt(name, ".js", 0);
  }

  lemma DotSlashImport(name: string)
    ensures StartsWith("./" + name, "./") && ("./" + name)[2..] == name
  {
    assert ("./" + name)[..2] == "./";
  }

  lemma DotDotSlashImport(name: string)
    ensures !StartsWith("../" + name, "./") && StartsWith("../" + name, "../") && ("../" + name)[3..] == name
  {
    assert ("../" + name)[1] == '.';
    assert ("../" + name)[..3] == "../";
  }

  /** `./name` from a top-level file gives the name alone, with `.js`. */
  lemma ResolveAtTop(file: string, name: string)
    requires '/' !in file
    ensures ResolveImportPath(file, "./" + name) == Some(WithJs(name))
  {
    DotSlashImport(name);
    SplitNoSeparator(file, '/');
    assert Directory(file) == [];
  }

  /** `./name` from `dir/file` lands in `dir`. */
  lemma ResolveInDirectory(dir: string, file: string, name: string)
    requires dir != "" && '/' !in dir && '/' !in file
    ensures ResolveImportPath(dir + "/" + file, "./" + name) == Some(dir + "/" + WithJs(name))
  {
    DotSlashImport(name);
    assert dir + "/" + file == dir + ['/'] + file;
    SplitOnce(dir, '/', file);
    assert Directory(dir + "/" + file) == [dir];
  }

  /** Only the first `../` is stripped: `../name` from `a/b/file` lands in `a`. */
  lemma ResolveOneUp(a: string, b: string, file: string, name: string)
    requires '/' !in a && '/' !in b && '/' !in file
    ensures ResolveImportPath(a + "/" + b + "/" + file, "../" + name) == Some(a + "/" + WithJs(name))
  {
    DotDotSlashImport(name);
    var parts := [a, b, file];
    JoinCons(b, [file], "/");
    JoinCons(a, [b, file], "/");
    assert Join(parts, "/") == a + "/" + b + "/" + file;
    SplitJoin(parts, '/');
    assert parts[..1] + [WithJs(name)] == [a, WithJs(name)];
    JoinCons(a, [WithJs(name)], "/");
  }

  /** The sample project's `./SearchBar` import from `SearchResults.js` resolves to `SearchBar.js`. */
  lemma ResolveSampleImport(current: string, importPath: string)
    requires current == "SearchResults.js" && importPath == "./SearchBar"
    ensures ResolveImportPath(current, importPath) == Some("SearchBar.js")
  {
    var name := importPath[2..];
    assert importPath == "./" + name;
    ResolveAtTop(current, name);
    WithJsAppends(name);
    assert name + ".js" == "SearchBar.js";
  }

  /** A `.jsx` name gets `.js` appended: `./B.jsx` from `src/A.js` resolves to `src/B.jsx.js`. */
  lemma ResolveJsxImport(current: string, importPath: string)
    requires current == "src/A.js" && importPath == "./B.jsx"
    ensures ResolveImportPath(current, importPath) == Some("src/B.jsx.js")
  {
    var dir, file, name := current[..3], current[4..], importPath[2..];
    assert current == dir + "/" + file;
    assert importPath == "./" + name;
    ResolveInDirectory(dir, file, name);
    WithJsAppends(name);
    assert dir == "src" && name == "B.jsx";
    assert "src" + "/" + ("B.jsx" + ".js") == "src/B.jsx.js";
  }

  /** Only one `../` is stripped: `../../r` from `a/b/f` resolves to `a/../r.js`. */
  lemma ResolveDoubleParent(a: string, b: string, file: string, rest: string)
    requires '/' !in a && '/' !in b && '/' !in file
    requires |rest| > 0 && rest[|rest| - 1] != 's'
    ensures ResolveImportPath(a + "/" + b + "/" + file, "../../" + rest) == Some(a + "/../" + rest + ".js")
  {
    var name := "../" + rest;
    assert "../../" + rest == "../" + name;
    assert ResolveImportPath(a + "/" + b + "/" + file, "../" + name) == Some(a + "/" + WithJs(name)) by {
      ResolveOneUp(a, b, file, name);
    }
    assert WithJs(name) == name + ".js" by {
      assert name[|name| - 1] == rest[|rest| - 1];
      WithJsAppends(name);
    }
    assert a + "/" + (name + ".js") == a + "/../" + rest + ".js" by {
      var tail := rest + ".js";
      AppendAssoc("../", rest, ".js");
      AppendAssoc(a + "/", "../", tail);
      AppendAssoc(a, "/", "../");
      assert "/" + "../" == "/../";
      AppendAssoc(a + "/../", rest, ".js");
    }
  }

  // ---------------------------------------------------------------------------
  // Properties of the edges

  lemma {:induction false} EdgesForAppend(filename: string, a: seq<string>, b: seq<string>, files: Dict<string>)
    ensures EdgesFor(filename, a + b, files) == EdgesFor(filename, a, files) + EdgesFor(filename, b, files)
  {
    if |b| > 0 {
      var b' := b[..|b| - 1];
      AppendLast(a, b);
      EdgesForAppend(filename, a, b', files);
      AppendAssoc(EdgesFor(filename, a, files), EdgesFor(filename, b', files), EdgeStep(filename, b[|b| - 1], files));
    } else {
      AppendEmpty(a, b);
    }
  }

  /** No de-duplication: repeating the imports repeats the edges. */
  lemma EdgesRepeat(filename: string, imports: seq<string>, files: Dict<string>)
    ensures EdgesFor(filename, imports + imports, files) == EdgesFor(filename, imports, files) + EdgesFor(filename, imports, files)
  {
    EdgesForAppend(filename, imports, imports, files);
  }

  /**
   * An edge from `filename` to `t` is emitted exactly when one of its imports is
   * local and resolves to `t`, a stored file; every edge starts at `filename`,
   * targets a stored `.js` file and is described as "f imports t".
   */
  lemma {:induction false} EdgesForMember(filename: string, imports: seq<string>, files: Dict<string>, e: Edge)
    ensures e in EdgesFor(filename, imports, files) <==>
      e.from == filename && e.kind == "import" && e.description == e.from + " imports " + e.to &&
      e.to in Keys(files) &&
      exists m :: 0 <= m < |imports| && ResolvesTo(filename, imports[m], e.to)
  {
    if |imports| > 0 {
      var pre := imports[..|imports| - 1];
      var last := imports[|imports| - 1];
      EdgesForMember(filename, pre, files, e);
      EdgeStepMember(filename, last, files, e);
      assert e in EdgesFor(filename, imports, files) <==>
        e in EdgesFor(filename, pre, files) || e in EdgeStep(filename, last, files);
      assert imports == pre + [last];
      ResolvesSplit(filename, pre, last, e.to);
    }
  }

  /** The edge of one import, if any, is the edge to the file it resolves to. */
  lemma EdgeStepMember(filename: string, importPath: string, files: Dict<string>, e: Edge)
    ensures e in EdgeStep(filename, importPath, files) <==>
      e.from == filename && e.kind == "import" && e.description == e.from + " imports " + e.to &&
      e.to in Keys(files) && ResolvesTo(filename, importPath, e.to)
  {
  }

  /** Some import of `pre + [last]` resolves to `t` iff one of `pre` does or `last` does. */
  lemma ResolvesSplit(filename: string, pre: seq<string>, last: string, t: string)
    ensures (exists m :: 0 <= m < |pre + [last]| && ResolvesTo(filename, (pre + [last])[m], t)) <==>
      (exists m :: 0 <= m < |pre| && ResolvesTo(filename, pre[m], t)) || ResolvesTo(filename, last, t)
  {
    var imports := pre + [last];
    if exists m :: 0 <= m < |pre| && ResolvesTo(filename, pre[m], t) {
      var m :| 0 <= m < |pre| && ResolvesTo(filename, pre[m], t);
      assert imports[m] == pre[m];
    }
    if ResolvesTo(filename, last, t) {
      assert imports[|pre|] == last;
    }
    if exists m :: 0 <= m < |imports| && ResolvesTo(filename, imports[m], t) {
      var m :| 0 <= m < |imports| && ResolvesTo(filename, imports[m], t);
      if m < |pre| {
        assert imports[m] == pre[m];
      }
    }
  }

  /** Every stored edge leaves a stored file for a stored `.js` file. */
  lemma {:induction false} CrossReferenceEdgesShape(entries: Dict<string>, files: Dict<string>, scan: string -> ImportCaptures, e: Edge)
    requires e in CrossReferenceEdges(entries, files, scan)
    ensures e.from in Keys(entries) && e.to in Keys(files) && EndsWith(e.to, ".js") && e.kind == "import"
  {
    var pre := entries[..|entries| - 1];
    var last := entries[|entries| - 1];
    assert Keys(pre) == Keys(entries)[..|entries| - 1];
    if e in CrossReferenceEdges(pre, files, scan) {
      CrossReferenceEdgesShape(pre, files, scan, e);
    } else {
      var imports := AllCaptures(scan(last.value));
      EdgesForMember(last.key, imports, files, e);
      var m :| 0 <= m < |imports| && ResolvesTo(last.key, imports[m], e.to);
      ResolvedEndsWithJs(last.key, imports[m]);
    }
  }

  /** The captures are scanned pattern after pattern. */
  lemma AllCapturesOrder(c: ImportCaptures)
    ensures AllCaptures(c) == c.fromClauses + c.bareImports + c.requireCalls
  {
    FlattenThree(c.fromClauses, c.bareImports, c.requireCalls);
  }

  // ---------------------------------------------------------------------------
  // Properties of the usage map

  lemma {:induction false} ValuesForAppend<V>(a: seq<(string, V)>, b: seq<(string, V)>, k: string)
    ensures ValuesFor(a + b, k) == ValuesFor(a, k) + ValuesFor(b, k)
  {
    if |b| > 0 {
      var b' := b[..|b| - 1];
      AppendLast(a, b);
      ValuesForAppend(a, b', k);
      if b[|b| - 1].0 == k {
        AppendAssoc(ValuesFor(a, k), ValuesFor(b', k), [b[|b| - 1].1]);
      }
    } else {
      AppendEmpty(a, b);
    }
  }

  lemma {:induction false} NameEventsValues(filename: string, names: seq<string>, k: string)
    ensures ValuesFor(NameEvents(filename, names), k) == if k == "" then [] else seq(Occurrences(names, k), _ => filename)
  {
    if |names| > 0 {
      var pre := names[..|names| - 1];
      var last := names[|names| - 1];
      NameEventsValues(filename, pre, k);
      var step: seq<(string, string)> := if last != "" then [(last, filename)] else [];
      ValuesForAppend(NameEvents(filename, pre), step, k);
      assert ValuesFor(step, k) == (if last != "" && last == k then [filename] else []) by {
        if last != "" {
          assert step[..0] == [];
        }
      }
    }
  }

  /**
   * The list under a non-empty `name` has the defining file's name once per
   * function so named, file by file in input order, repeats kept; no list is
   * kept under the empty name.
   */
  lemma {:induction false} UsageMapLists(files: seq<FileInfo>, name: string)
    ensures ListOf(UsageMap(files), name) == if name == "" then [] else FilesDefining(files, name)
  {
    ListOfGroup(BatchNameEvents(files), name);
    UsageListsByFile(files, name);
  }

  lemma {:induction false} UsageListsByFile(files: seq<FileInfo>, name: string)
    ensures ValuesFor(BatchNameEvents(files), name) == if name == "" then [] else FilesDefining(files, name)
  {
    if |files| > 0 {
      var pre := files[..|files| - 1];
      var f := files[|files| - 1];
      UsageListsByFile(pre, name);
      ValuesForAppend(BatchNameEvents(pre), NameEvents(f.filename, f.functions), name);
      NameEventsValues(f.filename, f.functions, name);
    }
  }

  // ---------------------------------------------------------------------------
  // Properties of the summary

  lemma SummaryClausesShape(fileCount: nat, types: Dict<nat>, functions: nat, libraries: nat, mentions: ContentMentions)
    ensures var parts := SummaryClauses(fileCount, types, functions, libraries, mentions);
      parts[0] == SizeClause(fileCount, types) &&
      (functions > 0 ==> parts[1] == FunctionsClause(functions)) &&
      |parts| == 1 + (if functions > 0 then 1 else 0) + (if libraries > 0 then 1 else 0)
        + (if mentions.react then 1 else 0) + (if mentions.search then 1 else 0) + (if mentions.debounce then 1 else 0)
  {
  }

  /**
   * A non-empty batch's summary is its clauses joined by single spaces; the first
   * clause is `Single … file` for one file and `{n} files` otherwise, and the
   * functions clause is second exactly when there are functions.
   */
  lemma SummaryShape(files: seq<FileInfo>, mentions: ContentMentions)
    requires |files| > 0
    ensures ProjectSummary(files, mentions) == Join(SummaryParts(files, mentions), " ")
    ensures StartsWith(ProjectSummary(files, mentions), SummaryParts(files, mentions)[0])
    ensures |files| > 1 ==> SummaryParts(files, mentions)[0] == NatToString(|files|) + " files"
    ensures FunctionTotal(files) > 0 ==> SummaryParts(files, mentions)[1] == "with " + NatToString(FunctionTotal(files)) + " functions"
    ensures |SummaryParts(files, mentions)| ==
      1 + (if FunctionTotal(files) > 0 then 1 else 0) + (if |LibrarySet(files)| > 0 then 1 else 0)
      + (if mentions.react then 1 else 0) + (if mentions.search then 1 else 0) + (if mentions.debounce then 1 else 0)
  {
    SummaryClausesShape(|files|, CountAll(Extensions(files)), FunctionTotal(files), |LibrarySet(files)|, mentions);
    JoinStartsWithFirst(SummaryParts(files, mentions), " ");
  }

  /**
   * For a single file the first clause reads the `js` count, so one `.js` file
   * gives `Single 1 file`, and any other single file `Single JavaScript file`.
   */
  lemma SingleFileClause(f: FileInfo, mentions: ContentMentions)
    ensures Extension(f.filename) == "js" ==> SummaryParts([f], mentions)[0] == "Single 1 file"
    ensures Extension(f.filename) != "js" ==> SummaryParts([f], mentions)[0] == "Single JavaScript file"
  {
    var x := Extension(f.filename);
    SingleFileTypes(f);
    SummaryClausesShape(1, [Entry(x, 1)], FunctionTotal([f]), |LibrarySet([f])|, mentions);
    SingleSizeClause(x);
  }

  lemma SingleFileTypes(f: FileInfo)
    ensures CountAll(Extensions([f])) == [Entry(Extension(f.filename), 1)]
  {
    var x := Extension(f.filename);
    assert Extensions([f]) == [x];
    assert [x][..0] == [];
  }

  lemma SingleSizeClause(x: string)
    ensures x == "js" ==> SizeClause(1, [Entry(x, 1)]) == "Single 1 file"
    ensures x != "js" ==> SizeClause(1, [Entry(x, 1)]) == "Single JavaScript file"
  {
    var types := [Entry(x, 1)];
    if x == "js" {
      assert Lookup(types, "js") == Some(1);
      assert NatToString(1) == "1";
    } else {
      assert types[1..] == [];
      assert Lookup(types, "js") == None;
    }
  }

  // ---------------------------------------------------------------------------
  // Properties of the complexity totals

  /** A file without stored content adds nothing to any total. */
  lemma ContentlessFileAddsNothing(files: seq<FileInfo>, f: FileInfo, contents: Dict<string>, countImports: string -> nat)
    requires ContentOf(contents, f.filename) == ""
    ensures ComplexityTotals(files + [f], contents, countImports) == ComplexityTotals(files, contents, countImports)
  {
    assert (files + [f])[..|files|] == files;
  }

  /** A file with stored content adds its newline count plus one lines, its functions and its import tokens. */
  lemma StoredFileAdds(files: seq<FileInfo>, f: FileInfo, contents: Dict<string>, countImports: string -> nat)
    requires ContentOf(contents, f.filename) != ""
    ensures var c := ContentOf(contents, f.filename);
      var t := ComplexityTotals(files, contents, countImports);
      ComplexityTotals(files + [f], contents, countImports) ==
        Totals(t.lines + multiset(c)['\n'] + 1, t.functions + |f.functions|, t.imports + countImports(c))
  {
    assert (files + [f])[..|files|] == files;
    SplitLength(ContentOf(contents, f.filename), '\n');
  }
}
