/**
 * The context-manager agent of backend/app/agents/context_manager_agent.py:
 * agent status bookkeeping, the symbol usage map, cross-references, file
 * dependencies by name matching, the project summary and the statistics.
 */
module ContextManager {
  import opened Wrappers
  import opened Strings
  import opened Seqs
  import opened Dicts

  /** The keys of a function record this agent reads: `name` and the optional `line_number`. */
  datatype FunctionInfo = FunctionInfo(name: string, lineNumber: Option<int>)

  /**
   * One analysed file. An absent `functions`, `imports` or `external_libraries`
   * key reads as an empty list; an absent `file_type` is `None`.
   * `externalLibraries` holds the `name` of each library record.
   */
  datatype FileData = FileData(
    filename: string,
    functions: seq<FunctionInfo>,
    imports: seq<string>,
    fileType: Option<string>,
    externalLibraries: seq<string>)

  datatype UsageKind = Defined | Imported

  /** One `{'file', 'type', 'line'}` record of the usage map. */
  datatype Occurrence = Occurrence(file: string, kind: UsageKind, line: Option<int>)

  /** One `{'function', 'used_in', 'usage_types'}` record. */
  datatype CrossReference = CrossReference(name: string, usedIn: seq<string>, usageTypes: seq<UsageKind>)

  /** What `track_analysis_context` stores per file. */
  datatype ContextEntry = ContextEntry(analysisTime: real, functionsCount: nat, librariesCount: nat, summary: string)

  /** The parts of an analysis result `track_analysis_context` looks at. */
  datatype AnalysisResult = AnalysisResult(functionNames: seq<string>, libraryNames: seq<string>, summary: Option<string>)

  /** The dict returned by `get_analysis_statistics`. */
  datatype Statistics = Statistics(
    totalFiles: nat,
    totalFunctions: nat,
    totalLibraries: nat,
    fileTypes: Dict<nat>,
    averageFunctionsPerFile: real,
    mostCommonLibraries: seq<string>,
    crossReferencesCount: nat)

  const InternalDocAgentName := "internal_doc_agent"
  const LibraryDocAgentName := "library_doc_agent"
  const ContextManagerAgentName := "context_manager_agent"
  const AgentNames: set<string> := {InternalDocAgentName, LibraryDocAgentName, ContextManagerAgentName}

  function StatusOfAll(internal: string, library: string, manager: string): map<string, string>
  {
    map[InternalDocAgentName := internal, LibraryDocAgentName := library, ContextManagerAgentName := manager]
  }

  // ---------------------------------------------------------------------------
  // Specification of the usage map

  /** The `defined` occurrences a file contributes, one per function, in order. */
  function FunctionEvents(f: FileData): seq<(string, Occurrence)>
  {
    seq(|f.functions|, j requires 0 <= j < |f.functions| =>
      (f.functions[j].name, Occurrence(f.filename, Defined, f.functions[j].lineNumber)))
  }

  /** The `imported` occurrences a file contributes, one per import, in order, with no line. */
  function ImportEvents(f: FileData): seq<(string, Occurrence)>
  {
    seq(|f.imports|, j requires 0 <= j < |f.imports| => (f.imports[j], Occurrence(f.filename, Imported, None)))
  }

  /** Everything one file contributes: its functions first, then its imports. */
  function FileEvents(f: FileData): seq<(string, Occurrence)>
  {
    FunctionEvents(f) + ImportEvents(f)
  }

  /** All occurrences of a batch, file by file in input order. */
  function UsageEvents(files: seq<FileData>): seq<(string, Occurrence)>
  {
    if |files| == 0 then [] else UsageEvents(files[..|files| - 1]) + FileEvents(files[|files| - 1])
  }

  lemma UsageEventsStep(files: seq<FileData>, i: nat)
    requires i < |files|
    ensures UsageEvents(files[..i + 1]) == UsageEvents(files[..i]) + FunctionEvents(files[i]) + ImportEvents(files[i])
  {
    assert files[..i + 1][..i] == files[..i];
  }

  /** The usage map of a batch: name to occurrence list, names in first-appearance order. */
  function UsageMap(files: seq<FileData>): Dict<seq<Occurrence>>
  {
    Group(UsageEvents(files))
  }

  /** Number of functions plus number of imports over the batch. */
  function DeclarationCount(files: seq<FileData>): nat
  {
    if |files| == 0 then 0
    else DeclarationCount(files[..|files| - 1]) + |files[|files| - 1].functions| + |files[|files| - 1].imports|
  }

  function FunctionCount(files: seq<FileData>): nat
  {
    if |files| == 0 then 0 else FunctionCount(files[..|files| - 1]) + |files[|files| - 1].functions|
  }

  // ---------------------------------------------------------------------------
  // Specification of the cross-references

  function CrossReferenceOf(e: Entry<seq<Occurrence>>): CrossReference
  {
    CrossReference(
      e.key,
      seq(|e.value|, i requires 0 <= i < |e.value| => e.value[i].file),
      seq(|e.value|, i requires 0 <= i < |e.value| => e.value[i].kind))
  }

  /** The entries, in order, whose occurrence list is longer than one, as cross-references. */
  function CrossRefs(d: Dict<seq<Occurrence>>): seq<CrossReference>
  {
    if |d| == 0 then []
    else
      var e := d[|d| - 1];
      CrossRefs(d[..|d| - 1]) + (if |e.value| > 1 then [CrossReferenceOf(e)] else [])
  }

  // ---------------------------------------------------------------------------
  // Specification of the file dependencies

  /**
   * `_import_matches_file`: the filename up to its first `.` equals, ignoring
   * case, the import's last `/` segment up to its first `.`.
   */
  predicate ImportMatchesFile(importName: string, filename: string)
    ensures Before(filename, '.') == Before(After(importName, '/'), '.') ==> ImportMatchesFile(importName, filename)
    ensures ImportMatchesFile(importName, filename) ==> |Before(filename, '.')| == |Before(After(importName, '/'), '.')|
  {
    Lower(Before(filename, '.')) == Lower(Before(After(importName, '/'), '.'))
  }

  function Targets(deps: map<string, set<string>>, filename: string): set<string>
  {
    if filename in deps then deps[filename] else {}
  }

  /** The innermost loop body: record `filename -> other` when `other` is another file the import matches. */
  function AddIfMatch(deps: map<string, set<string>>, filename: string, importName: string, other: string): map<string, set<string>>
  {
    if other != filename && ImportMatchesFile(importName, other)
    then deps[filename := Targets(deps, filename) + {other}]
    else deps
  }

  /** One import of `filename` tried against each file of `others`, in order. */
  function ScanOthers(deps: map<string, set<string>>, filename: string, importName: string, others: seq<FileData>): map<string, set<string>>
  {
    if |others| == 0 then deps
    else AddIfMatch(ScanOthers(deps, filename, importName, others[..|others| - 1]), filename, importName, others[|others| - 1].filename)
  }

  /** All imports of `filename`, in order, each tried against the whole batch. */
  function ScanImports(deps: map<string, set<string>>, filename: string, imports: seq<string>, all: seq<FileData>): map<string, set<string>>
  {
    if |imports| == 0 then deps
    else ScanOthers(ScanImports(deps, filename, imports[..|imports| - 1], all), filename, imports[|imports| - 1], all)
  }

  /** The files of `prefix`, in order, scanned against the batch `all`. */
  function DependenciesOf(prefix: seq<FileData>, all: seq<FileData>): map<string, set<string>>
  {
    if |prefix| == 0 then map[]
    else
      var f := prefix[|prefix| - 1];
      ScanImports(DependenciesOf(prefix[..|prefix| - 1], all), f.filename, f.imports, all)
  }

  function Dependencies(files: seq<FileData>): map<string, set<string>>
  {
    DependenciesOf(files, files)
  }

  /** Some file of the batch carries this name. */
  predicate InBatch(files: seq<FileData>, name: string)
  {
    exists j :: 0 <= j < |files| && files[j].filename == name
  }

  /** No self-edge, no empty target set, and every target is a filename of the batch. */
  predicate WellFormedDependencies(deps: map<string, set<string>>, all: seq<FileData>)
  {
    forall k :: k in deps ==>
      deps[k] != {} && k !in deps[k] && forall t :: t in deps[k] ==> InBatch(all, t)
  }

  /** The `(filename, import)` pairs of a batch, file by file. */
  function FilePairs(f: FileData): seq<(string, string)>
  {
    seq(|f.imports|, m requires 0 <= m < |f.imports| => (f.filename, f.imports[m]))
  }

  function ImportPairs(files: seq<FileData>): seq<(string, string)>
  {
    if |files| == 0 then [] else ImportPairs(files[..|files| - 1]) + FilePairs(files[|files| - 1])
  }

  /** Every edge `k -> t` of `deps` is to another batch file that an import paired with `k` in `pairs` matches. */
  predicate EdgesJustified(deps: map<string, set<string>>, pairs: seq<(string, string)>, all: seq<FileData>)
  {
    forall k :: k in deps ==> forall t :: t in deps[k] ==> t != k && InBatch(all, t) && Justified(pairs, k, t)
  }

  /** Some pair of `pairs` has filename `k` and an import matching `t`. */
  predicate Justified(pairs: seq<(string, string)>, k: string, t: string)
  {
    exists p :: p in pairs && p.0 == k && ImportMatchesFile(p.1, t)
  }

  // ---------------------------------------------------------------------------
  // Specification of the summary

  function TypeOf(f: FileData): string
  {
    f.fileType.GetOr("unknown")
  }

  function FileTypes(files: seq<FileData>): seq<string>
  {
    seq(|files|, i requires 0 <= i < |files| => TypeOf(files[i]))
  }

  predicate AnyContained(name: string, needles: seq<string>)
  {
    exists i :: 0 <= i < |needles| && Contains(name, needles[i])
  }

  /** The category counted for a library in the summary: substring tests, frontend first. */
  function SummaryCategory(libraryName: string): string
  {
    var n := Lower(libraryName);
    if AnyContained(n, ["react", "vue", "angular"]) then "frontend"
    else if AnyContained(n, ["express", "flask", "fastapi"]) then "backend"
    else "utility"
  }

  function SummaryCategories(libraries: seq<string>): seq<string>
  {
    seq(|libraries|, i requires 0 <= i < |libraries| => SummaryCategory(libraries[i]))
  }

  /** `", ".join(f"{count} {key}" for key, count in counter.items())`. */
  function CountList(c: Dict<nat>): string
  {
    Join(seq(|c|, i requires 0 <= i < |c| => NatToString(c[i].value) + " " + c[i].key), ", ")
  }

  function SummaryHead(totalFiles: nat, totalFunctions: nat): string
  {
    "Project contains " + NatToString(totalFiles) + " files with " + NatToString(totalFunctions) + " functions"
  }

  /** The clauses of the summary: the head, then file types and libraries when their counters are non-empty. */
  function SummaryParts(files: seq<FileData>, libraries: seq<string>): seq<string>
  {
    SummaryClauses(SummaryHead(|files|, FunctionCount(files)), CountAll(FileTypes(files)), CountAll(SummaryCategories(libraries)))
  }

  function SummaryClauses(head: string, types: Dict<nat>, categories: Dict<nat>): seq<string>
  {
    [head]
    + (if |types| > 0 then ["File types: " + CountList(types)] else [])
    + (if |categories| > 0 then ["Libraries: " + CountList(categories)] else [])
  }

  function ProjectSummary(files: seq<FileData>, libraries: seq<string>): string
  {
    Join(SummaryParts(files, libraries), ". ") + "."
  }

  /** The distinct library names over the batch. */
  function LibraryNames(files: seq<FileData>): set<string>
  {
    if |files| == 0 then {}
    else LibraryNames(files[..|files| - 1]) + Elements(files[|files| - 1].externalLibraries)
  }

  // ---------------------------------------------------------------------------
  // coordinate_agents

  /** The status every agent should have at an analysis stage. */
  function CoordinateAgents(stage: string): (r: map<string, string>)
    ensures r.Keys == AgentNames
  {
    if stage == "parsing" then StatusOfAll("idle", "idle", "active")
    else if stage == "internal_docs" then StatusOfAll("active", "idle", "active")
    else if stage == "library_docs" then StatusOfAll("completed", "active", "active")
    else if stage == "finalizing" then StatusOfAll("completed", "completed", "active")
    else StatusOfAll("idle", "idle", "idle")
  }

  predicate KnownStage(stage: string)
  {
    stage == "parsing" || stage == "internal_docs" || stage == "library_docs" || stage == "finalizing"
  }

  /**
   * The context manager is active at every known stage and idle otherwise; each
   * documentation agent is active at its own stage only, and the library agent
   * completes only after the internal one.
   */
  lemma CoordinationStages(stage: string)
    ensures CoordinateAgents(stage)[ContextManagerAgentName] == (if KnownStage(stage) then "active" else "idle")
    ensures CoordinateAgents(stage)[InternalDocAgentName] == "active" <==> stage == "internal_docs"
    ensures CoordinateAgents(stage)[LibraryDocAgentName] == "active" <==> stage == "library_docs"
    ensures CoordinateAgents(stage)[LibraryDocAgentName] == "completed" ==> CoordinateAgents(stage)[InternalDocAgentName] == "completed"
    ensures !KnownStage(stage) ==> CoordinateAgents(stage) == StatusOfAll("idle", "idle", "idle")
  {
  }

  // ---------------------------------------------------------------------------
  // The agent

  class ContextManagerAgent {
    var contextMemory: map<string, ContextEntry>
    var functionUsageMap: Dict<seq<Occurrence>>
    var fileDependencies: map<string, set<string>>
    var agentStatus: map<string, string>
    var analysisProgress: real

    constructor ()
      ensures contextMemory == map[] && functionUsageMap == [] && fileDependencies == map[]
      ensures agentStatus == StatusOfAll("idle", "idle", "idle")
      ensures analysisProgress == 0.0
    {
      contextMemory := map[];
      functionUsageMap := [];
      fileDependencies := map[];
      agentStatus := StatusOfAll("idle", "idle", "idle");
      analysisProgress := 0.0;
    }

    /** Sets one agent's status; every other agent keeps its own. */
    method UpdateAgentStatus(agentName: string, status: string)
      modifies this`agentStatus
      ensures agentStatus == old(agentStatus)[agentName := status]
      ensures forall a :: a in old(agentStatus) && a != agentName ==> a in agentStatus && agentStatus[a] == old(agentStatus)[a]
    {
      agentStatus := agentStatus[agentName := status];
    }

    /** Stores the progress, capped at 1.0. */
    method UpdateProgress(progress: real)
      modifies this`analysisProgress
      ensures analysisProgress <= 1.0
      ensures analysisProgress == if progress <= 1.0 then progress else 1.0
    {
      analysisProgress := if progress <= 1.0 then progress else 1.0;
    }

    /** Records the function and library counts and summary of one file's analysis, at time `now`. */
    method TrackAnalysisContext(filePath: string, result: AnalysisResult, now: real)
      modifies this`contextMemory
      ensures contextMemory == old(contextMemory)[filePath :=
        ContextEntry(now, |result.functionNames|, |result.libraryNames|, result.summary.GetOr(""))]
    {
      contextMemory := contextMemory[filePath :=
        ContextEntry(now, |result.functionNames|, |result.libraryNames|, result.summary.GetOr(""))];
    }

    function GetAnalysisContext(filePath: string): (r: Option<ContextEntry>)
      reads this
      ensures r.Some? <==> filePath in contextMemory
      ensures r.Some? ==> r.value == contextMemory[filePath]
    {
      if filePath in contextMemory then Some(contextMemory[filePath]) else None
    }

    /** Empties the three maps, resets progress and sets every known agent to `idle`. */
    method ClearContext()
      modifies this
      ensures contextMemory == map[] && functionUsageMap == [] && fileDependencies == map[]
      ensures analysisProgress == 0.0
      ensures agentStatus.Keys == old(agentStatus).Keys
      ensures forall a :: a in agentStatus ==> agentStatus[a] == "idle"
    {
      contextMemory := map[];
      functionUsageMap := [];
      fileDependencies := map[];
      analysisProgress := 0.0;
      agentStatus := map a | a in agentStatus :: "idle";
    }

    /** Name to occurrences: a `defined` one per function, then an `imported` one per import, file by file. */
    method BuildFunctionUsageMap(files: seq<FileData>) returns (usage: Dict<seq<Occurrence>>)
      ensures usage == UsageMap(files)
    {
      usage := [];
      var i := 0;
      while i < |files|
        invariant 0 <= i <= |files|
        invariant usage == Group(UsageEvents(files[..i]))
      {
        var f := files[i];
        ghost var before := UsageEvents(files[..i]);
        TakeAll(FunctionEvents(f), before);
        var j := 0;
        while j < |f.functions|
          invariant 0 <= j <= |f.functions|
          invariant usage == Group(before + FunctionEvents(f)[..j])
        {
          var func := f.functions[j];
          GroupStep(before, FunctionEvents(f), j);
          usage := Append(usage, func.name, Occurrence(f.filename, Defined, func.lineNumber));
          j := j + 1;
        }
        ghost var mid := before + FunctionEvents(f);
        TakeAll(ImportEvents(f), mid);
        var k := 0;
        while k < |f.imports|
          invariant 0 <= k <= |f.imports|
          invariant usage == Group(mid + ImportEvents(f)[..k])
        {
          GroupStep(mid, ImportEvents(f), k);
          usage := Append(usage, f.imports[k], Occurrence(f.filename, Imported, None));
          k := k + 1;
        }
        UsageEventsStep(files, i);
        i := i + 1;
      }
      TakeAll(files, []);
    }

    /** The names whose occurrence list is longer than one, with parallel file and kind lists. */
    method FindCrossReferences(files: seq<FileData>) returns (refs: seq<CrossReference>)
      ensures refs == CrossRefs(UsageMap(files))
    {
      var usage := BuildFunctionUsageMap(files);
      refs := [];
      var i := 0;
      while i < |usage|
        invariant 0 <= i <= |usage|
        invariant refs == CrossRefs(usage[..i])
      {
        var e := usage[i];
        assert usage[..i + 1][..i] == usage[..i];
        if |e.value| > 1 {
          var usedIn := [];
          var kinds := [];
          var j := 0;
          while j < |e.value|
            invariant 0 <= j <= |e.value|
            invariant usedIn == CrossReferenceOf(e).usedIn[..j]
            invariant kinds == CrossReferenceOf(e).usageTypes[..j]
          {
            assert CrossReferenceOf(e).usedIn[..j + 1] == CrossReferenceOf(e).usedIn[..j] + [e.value[j].file];
            assert CrossReferenceOf(e).usageTypes[..j + 1] == CrossReferenceOf(e).usageTypes[..j] + [e.value[j].kind];
            usedIn := usedIn + [e.value[j].file];
            kinds := kinds + [e.value[j].kind];
            j := j + 1;
          }
          assert usedIn == CrossReferenceOf(e).usedIn;
          assert kinds == CrossReferenceOf(e).usageTypes;
          refs := refs + [CrossReference(e.key, usedIn, kinds)];
        }
        i := i + 1;
      }
      assert usage[..i] == usage;
    }

    /** Each file mapped to the other batch files one of its imports names; files without a match are absent. */
    method AnalyzeFileDependencies(files: seq<FileData>) returns (deps: map<string, set<string>>)
      ensures deps == Dependencies(files)
      ensures WellFormedDependencies(deps, files)
    {
      deps := map[];
      var i := 0;
      while i < |files|
        invariant 0 <= i <= |files|
        invariant deps == DependenciesOf(files[..i], files)
      {
        var filename := files[i].filename;
        var imports := files[i].imports;
        ghost var start := deps;
        var m := 0;
        while m < |imports|
          invariant 0 <= m <= |imports|
          invariant deps == ScanImports(start, filename, imports[..m], files)
        {
          var importName := imports[m];
          ghost var before := deps;
          var j := 0;
          while j < |files|
            invariant 0 <= j <= |files|
            invariant deps == ScanOthers(before, filename, importName, files[..j])
          {
            var other := files[j].filename;
            assert files[..j + 1][..j] == files[..j];
            if other != filename && ImportMatchesFile(importName, other) {
              deps := deps[filename := Targets(deps, filename) + {other}];
            }
            j := j + 1;
          }
          assert files[..j] == files;
          assert imports[..m + 1][..m] == imports[..m];
          m := m + 1;
        }
        assert imports[..m] == imports;
        assert files[..i + 1][..i] == files[..i];
        i := i + 1;
      }
      assert files[..i] == files;
      DependenciesWellFormed(files);
    }

    /** The summary sentence: counts, then file types and library categories when there are any. */
    method GenerateProjectSummary(files: seq<FileData>, libraries: seq<string>) returns (summary: string)
      ensures summary == ProjectSummary(files, libraries)
    {
      var totalFunctions, types := TallyFiles(files);
      var categories := CountCategories(libraries);
      var parts := [SummaryHead(|files|, totalFunctions)];
      if |types| > 0 {
        parts := parts + ["File types: " + CountList(types)];
      }
      if |categories| > 0 {
        parts := parts + ["Libraries: " + CountList(categories)];
      }
      assert parts == SummaryClauses(SummaryHead(|files|, totalFunctions), types, categories);
      summary := Join(parts, ". ") + ".";
    }

    /** Totals, per-type counts, the guarded average, distinct libraries and the cross-reference count. */
    method GetAnalysisStatistics(files: seq<FileData>) returns (stats: Statistics)
      ensures stats.totalFiles == |files|
      ensures stats.totalFunctions == FunctionCount(files)
      ensures stats.fileTypes == CountAll(FileTypes(files))
      ensures |files| == 0 ==> stats.averageFunctionsPerFile == 0.0
      ensures |files| > 0 ==> stats.averageFunctionsPerFile == (stats.totalFunctions as real) / (|files| as real)
      ensures stats.totalLibraries == |LibraryNames(files)|
      ensures stats.mostCommonLibraries == []
      ensures stats.crossReferencesCount == |CrossRefs(UsageMap(files))|
    {
      var totalFunctions, types := TallyFiles(files);
      var average := 0.0;
      if |files| > 0 {
        average := (totalFunctions as real) / (|files| as real);
      }
      var allLibraries := CollectLibraryNames(files);
      var refs := FindCrossReferences(files);
      stats := Statistics(|files|, totalFunctions, |allLibraries|, types, average, [], |refs|);
    }
  }

  /** The function total and the per-type counter both statistics and the summary compute. */
  method TallyFiles(files: seq<FileData>) returns (totalFunctions: nat, types: Dict<nat>)
    ensures totalFunctions == FunctionCount(files)
    ensures types == CountAll(FileTypes(files))
  {
    totalFunctions := 0;
    types := [];
    var i := 0;
    while i < |files|
      invariant 0 <= i <= |files|
      invariant totalFunctions == FunctionCount(files[..i])
      invariant types == CountAll(FileTypes(files)[..i])
    {
      assert files[..i + 1][..i] == files[..i];
      assert FileTypes(files)[..i + 1] == FileTypes(files)[..i] + [TypeOf(files[i])];
      CountAllSnoc(FileTypes(files)[..i], TypeOf(files[i]));
      totalFunctions := totalFunctions + |files[i].functions|;
      types := Bump(types, TypeOf(files[i]));
      i := i + 1;
    }
    assert files[..i] == files;
    assert FileTypes(files)[..i] == FileTypes(files);
  }

  /** The per-category counter of the summary, categories in first-seen order. */
  method CountCategories(libraries: seq<string>) returns (categories: Dict<nat>)
    ensures categories == CountAll(SummaryCategories(libraries))
  {
    categories := [];
    var k := 0;
    while k < |libraries|
      invariant 0 <= k <= |libraries|
      invariant categories == CountAll(SummaryCategories(libraries)[..k])
    {
      CountAllStep(SummaryCategories(libraries), k);
      categories := Bump(categories, SummaryCategory(libraries[k]));
      k := k + 1;
    }
    TakeAll(SummaryCategories(libraries), []);
  }

  /** The set of every external library name over the batch. */
  method CollectLibraryNames(files: seq<FileData>) returns (names: set<string>)
    ensures names == LibraryNames(files)
  {
    names := {};
    var j := 0;
    while j < |files|
      invariant 0 <= j <= |files|
      invariant names == LibraryNames(files[..j])
    {
      assert files[..j + 1][..j] == files[..j];
      var libs := files[j].externalLibraries;
      ghost var before := names;
      var m := 0;
      while m < |libs|
        invariant 0 <= m <= |libs|
        invariant names == before + Elements(libs[..m])
      {
        assert libs[..m + 1] == libs[..m] + [libs[m]];
        ElementsSnoc(libs[..m], libs[m]);
        names := names + {libs[m]};
        m := m + 1;
      }
      assert libs[..m] == libs;
      j := j + 1;
    }
    assert files[..j] == files;
  }

  // ---------------------------------------------------------------------------
  // Properties

  lemma UsageEventsSnoc(files: seq<FileData>, f: FileData)
    ensures UsageEvents(files + [f]) == UsageEvents(files) + FileEvents(f)
  {
    assert (files + [f])[..|files|] == files;
  }

  lemma {:induction false} UsageEventsLength(files: seq<FileData>)
    ensures |UsageEvents(files)| == DeclarationCount(files)
  {
    if |files| > 0 {
      UsageEventsLength(files[..|files| - 1]);
    }
  }

  /** The map holds exactly one occurrence per function and per import of the batch. */
  lemma TotalOccurrences(files: seq<FileData>)
    ensures TotalLength(UsageMap(files)) == DeclarationCount(files)
  {
    TotalGroup(UsageEvents(files));
    UsageEventsLength(files);
  }

  /** The names of the map are the batch's names in order of first appearance. */
  lemma UsageMapKeys(files: seq<FileData>)
    ensures Keys(UsageMap(files)) == Dedup(EventKeys(UsageEvents(files)))
    ensures NoDup(Keys(UsageMap(files)))
  {
    KeysGroup(UsageEvents(files));
  }

  lemma {:induction false} ValuesForMember<V>(evs: seq<(string, V)>, k: string, x: V)
    ensures x in ValuesFor(evs, k) <==> (k, x) in evs
  {
    if |evs| > 0 {
      var p := evs[..|evs| - 1];
      ValuesForMember(p, k, x);
      assert evs == p + [evs[|evs| - 1]];
    }
  }

  lemma {:induction false} UsageEventsMember(files: seq<FileData>, e: (string, Occurrence))
    ensures e in UsageEvents(files) <==> exists i :: 0 <= i < |files| && e in FileEvents(files[i])
  {
    if |files| > 0 {
      var p := files[..|files| - 1];
      UsageEventsMember(p, e);
      if e in FileEvents(files[|files| - 1]) {
      } else if e in UsageEvents(p) {
        var i :| 0 <= i < |p| && e in FileEvents(p[i]);
        assert files[i] == p[i];
      } else {
        forall i | 0 <= i < |files| ensures e !in FileEvents(files[i]) {
          if i < |p| {
            assert files[i] == p[i];
          }
        }
      }
    }
  }

  /**
   * An occurrence is listed under `name` exactly when some file contributes it:
   * a `defined` one per function so named (with its line number), an
   * `imported` one with no line per import equal to `name`.
   */
  lemma UsageMapOccurrences(files: seq<FileData>, name: string, o: Occurrence)
    ensures o in ListOf(UsageMap(files), name) <==>
      exists i :: 0 <= i < |files| && (name, o) in FileEvents(files[i])
  {
    ListOfGroup(UsageEvents(files), name);
    ValuesForMember(UsageEvents(files), name, o);
    UsageEventsMember(files, (name, o));
  }

  /** A file's `defined` occurrence carries the function's line number; an `imported` one has no line. */
  lemma FileEventsShape(f: FileData, name: string, o: Occurrence)
    requires (name, o) in FileEvents(f)
    ensures o.file == f.filename
    ensures o.kind == Defined ==> exists j :: 0 <= j < |f.functions| && f.functions[j].name == name && o.line == f.functions[j].lineNumber
    ensures o.kind == Imported ==> o.line == None && name in f.imports
  {
    var evs := FileEvents(f);
    var k :| 0 <= k < |evs| && evs[k] == (name, o);
    if k < |f.functions| {
      assert evs[k] == FunctionEvents(f)[k];
    } else {
      assert evs[k] == ImportEvents(f)[k - |f.functions|];
    }
  }

  lemma {:induction false} CrossRefsSnoc(d: Dict<seq<Occurrence>>, e: Entry<seq<Occurrence>>)
    ensures CrossRefs(d + [e]) == CrossRefs(d) + (if |e.value| > 1 then [CrossReferenceOf(e)] else [])
  {
    assert (d + [e])[..|d|] == d;
  }

  /** Cross-references come from the entries whose list is longer than one, in entry order. */
  lemma {:induction false} CrossRefsMember(d: Dict<seq<Occurrence>>, r: CrossReference)
    ensures r in CrossRefs(d) <==> exists i :: 0 <= i < |d| && |d[i].value| > 1 && r == CrossReferenceOf(d[i])
  {
    if |d| > 0 {
      var p := d[..|d| - 1];
      CrossRefsMember(p, r);
      if exists i :: 0 <= i < |p| && |p[i].value| > 1 && r == CrossReferenceOf(p[i]) {
        var i :| 0 <= i < |p| && |p[i].value| > 1 && r == CrossReferenceOf(p[i]);
        assert d[i] == p[i];
      }
      if exists i :: 0 <= i < |d| && |d[i].value| > 1 && r == CrossReferenceOf(d[i]) {
        var i :| 0 <= i < |d| && |d[i].value| > 1 && r == CrossReferenceOf(d[i]);
        if i < |p| {
          assert d[i] == p[i];
        }
      }
    }
  }

  lemma CrossRefsNamed(d: Dict<seq<Occurrence>>, name: string)
    requires NoDup(Keys(d))
    ensures (exists r :: r in CrossRefs(d) && r.name == name) <==> |ListOf(d, name)| > 1
  {
    if |ListOf(d, name)| > 1 {
      assert name in Keys(d);
      var i :| 0 <= i < |d| && Keys(d)[i] == name;
      LookupAt(d, i);
      CrossRefsMember(d, CrossReferenceOf(d[i]));
      assert CrossReferenceOf(d[i]) in CrossRefs(d) && CrossReferenceOf(d[i]).name == name;
    }
    if exists r :: r in CrossRefs(d) && r.name == name {
      var r :| r in CrossRefs(d) && r.name == name;
      CrossRefsMember(d, r);
      var i :| 0 <= i < |d| && |d[i].value| > 1 && r == CrossReferenceOf(d[i]);
      LookupAt(d, i);
    }
  }

  lemma CrossRefsParallel(d: Dict<seq<Occurrence>>, r: CrossReference)
    requires NoDup(Keys(d))
    requires r in CrossRefs(d)
    ensures var occs := ListOf(d, r.name);
      |occs| > 1 && |r.usedIn| == |occs| && |r.usageTypes| == |occs| &&
      forall m :: 0 <= m < |occs| ==> r.usedIn[m] == occs[m].file && r.usageTypes[m] == occs[m].kind
  {
    CrossRefsMember(d, r);
    var i :| 0 <= i < |d| && |d[i].value| > 1 && r == CrossReferenceOf(d[i]);
    LookupAt(d, i);
  }

  /**
   * A name is reported exactly when its occurrence list has more than one entry,
   * even if all of them lie in one file; `used_in` and `usage_types` run parallel
   * to the occurrence list.
   */
  lemma CrossReferenceIff(files: seq<FileData>, name: string)
    ensures (exists r :: r in CrossRefs(UsageMap(files)) && r.name == name) <==> |ListOf(UsageMap(files), name)| > 1
    ensures forall r :: r in CrossRefs(UsageMap(files)) ==>
      var occs := ListOf(UsageMap(files), r.name);
      |r.usedIn| == |occs| && |r.usageTypes| == |occs| &&
      forall m :: 0 <= m < |occs| ==> r.usedIn[m] == occs[m].file && r.usageTypes[m] == occs[m].kind
  {
    UsageMapKeys(files);
    CrossRefsNamed(UsageMap(files), name);
    forall r | r in CrossRefs(UsageMap(files))
      ensures var occs := ListOf(UsageMap(files), r.name);
        |r.usedIn| == |occs| && |r.usageTypes| == |occs| &&
        forall m :: 0 <= m < |occs| ==> r.usedIn[m] == occs[m].file && r.usageTypes[m] == occs[m].kind
    {
      CrossRefsParallel(UsageMap(files), r);
    }
  }

  lemma {:induction false} FunctionCountOfNoFunctions(files: seq<FileData>)
    requires forall i :: 0 <= i < |files| ==> files[i].functions == []
    ensures FunctionCount(files) == 0
  {
    if |files| > 0 {
      FunctionCountOfNoFunctions(files[..|files| - 1]);
    }
  }

  // --- dependencies

  lemma AddIfMatchWellFormed(deps: map<string, set<string>>, filename: string, importName: string, all: seq<FileData>, j: nat)
    requires WellFormedDependencies(deps, all)
    requires j < |all|
    ensures WellFormedDependencies(AddIfMatch(deps, filename, importName, all[j].filename), all)
  {
  }

  lemma {:induction false} ScanOthersWellFormed(deps: map<string, set<string>>, filename: string, importName: string, n: nat, all: seq<FileData>)
    requires WellFormedDependencies(deps, all)
    requires n <= |all|
    ensures WellFormedDependencies(ScanOthers(deps, filename, importName, all[..n]), all)
  {
    if n > 0 {
      assert all[..n][..n - 1] == all[..n - 1];
      ScanOthersWellFormed(deps, filename, importName, n - 1, all);
      AddIfMatchWellFormed(ScanOthers(deps, filename, importName, all[..n - 1]), filename, importName, all, n - 1);
    }
  }

  lemma {:induction false} ScanImportsWellFormed(deps: map<string, set<string>>, filename: string, imports: seq<string>, all: seq<FileData>)
    requires WellFormedDependencies(deps, all)
    ensures WellFormedDependencies(ScanImports(deps, filename, imports, all), all)
  {
    if |imports| > 0 {
      ScanImportsWellFormed(deps, filename, imports[..|imports| - 1], all);
      assert all[..|all|] == all;
      ScanOthersWellFormed(ScanImports(deps, filename, imports[..|imports| - 1], all), filename, imports[|imports| - 1], |all|, all);
    }
  }

  lemma {:induction false} DependenciesOfWellFormed(prefix: seq<FileData>, all: seq<FileData>)
    ensures WellFormedDependencies(DependenciesOf(prefix, all), all)
  {
    if |prefix| > 0 {
      DependenciesOfWellFormed(prefix[..|prefix| - 1], all);
      var f := prefix[|prefix| - 1];
      ScanImportsWellFormed(DependenciesOf(prefix[..|prefix| - 1], all), f.filename, f.imports, all);
    }
  }

  /** No file depends on itself, no file maps to an empty set, and every target is a batch filename. */
  lemma DependenciesWellFormed(files: seq<FileData>)
    ensures WellFormedDependencies(Dependencies(files), files)
  {
    DependenciesOfWellFormed(files, files);
  }

  lemma AddIfMatchJustified(deps: map<string, set<string>>, filename: string, importName: string, other: string,
                            pairs: seq<(string, string)>, all: seq<FileData>)
    requires EdgesJustified(deps, pairs, all)
    requires (filename, importName) in pairs && InBatch(all, other)
    ensures EdgesJustified(AddIfMatch(deps, filename, importName, other), pairs, all)
  {
    var p := (filename, importName);
    var r := AddIfMatch(deps, filename, importName, other);
    forall k, t | k in r && t in r[k] ensures t != k && InBatch(all, t) && Justified(pairs, k, t) {
      if k == filename && t == other && other != filename && ImportMatchesFile(importName, other) {
        assert p in pairs && p.0 == k && ImportMatchesFile(p.1, t);
      } else {
        assert k in deps && t in deps[k];
      }
    }
  }

  lemma {:induction false} ScanOthersJustified(deps: map<string, set<string>>, filename: string, importName: string, n: nat,
                                               pairs: seq<(string, string)>, all: seq<FileData>)
    requires EdgesJustified(deps, pairs, all)
    requires (filename, importName) in pairs && n <= |all|
    ensures EdgesJustified(ScanOthers(deps, filename, importName, all[..n]), pairs, all)
  {
    if n > 0 {
      assert all[..n][..n - 1] == all[..n - 1];
      ScanOthersJustified(deps, filename, importName, n - 1, pairs, all);
      assert InBatch(all, all[n - 1].filename);
      AddIfMatchJustified(ScanOthers(deps, filename, importName, all[..n - 1]), filename, importName, all[n - 1].filename, pairs, all);
    }
  }

  lemma {:induction false} ScanImportsJustified(deps: map<string, set<string>>, filename: string, imports: seq<string>,
                                                pairs: seq<(string, string)>, all: seq<FileData>)
    requires EdgesJustified(deps, pairs, all)
    requires forall q :: 0 <= q < |imports| ==> (filename, imports[q]) in pairs
    ensures EdgesJustified(ScanImports(deps, filename, imports, all), pairs, all)
  {
    if |imports| > 0 {
      var n := |imports|;
      assert forall q :: 0 <= q < n - 1 ==> imports[..n - 1][q] == imports[q];
      ScanImportsJustified(deps, filename, imports[..n - 1], pairs, all);
      assert all[..|all|] == all;
      ScanOthersJustified(ScanImports(deps, filename, imports[..n - 1], all), filename, imports[n - 1], |all|, pairs, all);
    }
  }

  lemma JustifiedWeaken(deps: map<string, set<string>>, pairs: seq<(string, string)>, more: seq<(string, string)>, all: seq<FileData>)
    requires EdgesJustified(deps, pairs, all)
    ensures EdgesJustified(deps, pairs + more, all)
  {
    forall k, t | k in deps && t in deps[k]
      ensures t != k && InBatch(all, t) && Justified(pairs + more, k, t)
    {
      assert Justified(pairs, k, t);
      var p :| p in pairs && p.0 == k && ImportMatchesFile(p.1, t);
      assert p in pairs + more;
    }
  }

  lemma {:induction false} DependenciesOfJustified(prefix: seq<FileData>, all: seq<FileData>)
    ensures EdgesJustified(DependenciesOf(prefix, all), ImportPairs(prefix), all)
  {
    if |prefix| > 0 {
      var p := prefix[..|prefix| - 1];
      var f := prefix[|prefix| - 1];
      DependenciesOfJustified(p, all);
      JustifiedWeaken(DependenciesOf(p, all), ImportPairs(p), FilePairs(f), all);
      forall q | 0 <= q < |f.imports| ensures (f.filename, f.imports[q]) in ImportPairs(prefix) {
        assert FilePairs(f)[q] == (f.filename, f.imports[q]);
      }
      ScanImportsJustified(DependenciesOf(p, all), f.filename, f.imports, ImportPairs(prefix), all);
    }
  }

  lemma {:induction false} ScanOthersGrows(deps: map<string, set<string>>, filename: string, importName: string, others: seq<FileData>, x: string)
    ensures Targets(deps, x) <= Targets(ScanOthers(deps, filename, importName, others), x)
  {
    if |others| > 0 {
      ScanOthersGrows(deps, filename, importName, others[..|others| - 1], x);
    }
  }

  lemma {:induction false} ScanOthersAdds(deps: map<string, set<string>>, filename: string, importName: string, others: seq<FileData>, j: nat)
    requires j < |others| && others[j].filename != filename && ImportMatchesFile(importName, others[j].filename)
    ensures others[j].filename in Targets(ScanOthers(deps, filename, importName, others), filename)
  {
    var n := |others|;
    if j < n - 1 {
      assert others[..n - 1][j] == others[j];
      ScanOthersAdds(deps, filename, importName, others[..n - 1], j);
    } else {
      ScanOthersGrows(deps, filename, importName, others[..n - 1], filename);
    }
  }

  lemma {:induction false} ScanImportsGrows(deps: map<string, set<string>>, filename: string, imports: seq<string>, all: seq<FileData>, x: string)
    ensures Targets(deps, x) <= Targets(ScanImports(deps, filename, imports, all), x)
  {
    if |imports| > 0 {
      ScanImportsGrows(deps, filename, imports[..|imports| - 1], all, x);
      ScanOthersGrows(ScanImports(deps, filename, imports[..|imports| - 1], all), filename, imports[|imports| - 1], all, x);
    }
  }

  lemma {:induction false} ScanImportsAdds(deps: map<string, set<string>>, filename: string, imports: seq<string>, all: seq<FileData>, q: nat, j: nat)
    requires q < |imports| && j < |all|
    requires all[j].filename != filename && ImportMatchesFile(imports[q], all[j].filename)
    ensures all[j].filename in Targets(ScanImports(deps, filename, imports, all), filename)
  {
    var n := |imports|;
    var before := ScanImports(deps, filename, imports[..n - 1], all);
    if q < n - 1 {
      assert imports[..n - 1][q] == imports[q];
      ScanImportsAdds(deps, filename, imports[..n - 1], all, q, j);
      ScanOthersGrows(before, filename, imports[n - 1], all, filename);
    } else {
      ScanOthersAdds(before, filename, imports[n - 1], all, j);
    }
  }

  lemma {:induction false} DependenciesOfAdds(prefix: seq<FileData>, all: seq<FileData>, p: (string, string), j: nat)
    requires p in ImportPairs(prefix) && j < |all|
    requires all[j].filename != p.0 && ImportMatchesFile(p.1, all[j].filename)
    ensures all[j].filename in Targets(DependenciesOf(prefix, all), p.0)
  {
    var pre := prefix[..|prefix| - 1];
    var f := prefix[|prefix| - 1];
    if p in ImportPairs(pre) {
      DependenciesOfAdds(pre, all, p, j);
      ScanImportsGrows(DependenciesOf(pre, all), f.filename, f.imports, all, p.0);
    } else {
      var q :| 0 <= q < |FilePairs(f)| && FilePairs(f)[q] == p;
      ScanImportsAdds(DependenciesOf(pre, all), f.filename, f.imports, all, q, j);
    }
  }

  lemma {:induction false} ImportPairsMember(files: seq<FileData>, p: (string, string))
    ensures p in ImportPairs(files) <==> exists i :: 0 <= i < |files| && files[i].filename == p.0 && p.1 in files[i].imports
  {
    if |files| > 0 {
      var pre := files[..|files| - 1];
      var f := files[|files| - 1];
      ImportPairsMember(pre, p);
      if p in FilePairs(f) {
        var q :| 0 <= q < |FilePairs(f)| && FilePairs(f)[q] == p;
        assert f.imports[q] == p.1;
      } else if p in ImportPairs(pre) {
        var i :| 0 <= i < |pre| && pre[i].filename == p.0 && p.1 in pre[i].imports;
        assert files[i] == pre[i];
      } else {
        assert forall q :: 0 <= q < |f.imports| ==> FilePairs(f)[q] == (f.filename, f.imports[q]);
        forall i | 0 <= i < |files| && files[i].filename == p.0 ensures p.1 !in files[i].imports {
          if i < |pre| {
            assert files[i] == pre[i];
          }
        }
      }
    }
  }

  /**
   * `k -> t` is an edge exactly when `t` is another file of the batch and some
   * import of a file named `k` matches `t`.
   */
  lemma DependenciesIff(files: seq<FileData>, k: string, t: string)
    ensures t in Targets(Dependencies(files), k) <==>
      t != k && InBatch(files, t) &&
      exists i, imp :: 0 <= i < |files| && files[i].filename == k && imp in files[i].imports && ImportMatchesFile(imp, t)
  {
    var deps := Dependencies(files);
    DependenciesOfJustified(files, files);
    if t in Targets(deps, k) {
      assert k in deps && t in deps[k];
      assert Justified(ImportPairs(files), k, t);
      var p :| p in ImportPairs(files) && p.0 == k && ImportMatchesFile(p.1, t);
      ImportPairsMember(files, p);
      var i :| 0 <= i < |files| && files[i].filename == p.0 && p.1 in files[i].imports;
    }
    if t != k && InBatch(files, t) &&
       exists i, imp :: 0 <= i < |files| && files[i].filename == k && imp in files[i].imports && ImportMatchesFile(imp, t) {
      var i, imp :| 0 <= i < |files| && files[i].filename == k && imp in files[i].imports && ImportMatchesFile(imp, t);
      var j :| 0 <= j < |files| && files[j].filename == t;
      ImportPairsMember(files, (k, imp));
      DependenciesOfAdds(files, files, (k, imp), j);
    }
  }

  // --- matching

  /** A filename whose part before the first `.` holds a `/` (a file in a subdirectory) matches no import. */
  lemma SubdirectoryFilesNeverMatch(importName: string, filename: string)
    requires '/' in Before(filename, '.')
    ensures !ImportMatchesFile(importName, filename)
  {
    var a := Before(filename, '.');
    var b := Before(After(importName, '/'), '.');
    var i :| 0 <= i < |a| && a[i] == '/';
    assert Lower(a)[i] == '/';
    assert forall m :: 0 <= m < |b| ==> Lower(b)[m] != '/';
  }

  /**
   * A same-directory import `./X` matches a file `Y.ext` exactly when `X` and `Y`
   * agree ignoring case, whatever the extension.
   */
  lemma RelativeImportMatchIff(importBase: string, fileBase: string, ext: string)
    requires '.' !in importBase && '/' !in importBase && '.' !in fileBase
    ensures ImportMatchesFile("./" + importBase, fileBase + "." + ext) <==> Lower(importBase) == Lower(fileBase)
  {
    IndexOfAt(fileBase, '.', ext);
    assert (fileBase + "." + ext)[..|fileBase|] == fileBase;
    SplitOnce(".", '/', importBase);
    assert "./" + importBase == "." + ['/'] + importBase;
    IndexOfAbsent(importBase, '.');
    assert importBase[..|importBase|] == importBase;
  }

  /** The sample project's `./SearchBar` import names `SearchBar.js` and not `SearchResults.js`. */
  lemma SampleImportMatches(importName: string, sameName: string, otherName: string)
    requires importName == "./SearchBar" && sameName == "SearchBar.js" && otherName == "SearchResults.js"
    ensures ImportMatchesFile(importName, sameName)
    ensures !ImportMatchesFile(importName, otherName)
  {
    var base, same, other := importName[2..], sameName[..9], otherName[..13];
    assert importName == "./" + base;
    assert sameName == same + "." + sameName[10..];
    assert otherName == other + "." + otherName[14..];
    assert base == same;
    RelativeImportMatchIff(base, same, sameName[10..]);
    RelativeImportMatchIff(base, other, otherName[14..]);
    assert |Lower(other)| != |Lower(base)|;
  }

  // --- summary

  lemma {:induction false} BumpNonEmpty(d: Dict<nat>, k: string)
    ensures |Bump(d, k)| > 0
  {
  }

  lemma CountAllEmptyIff(ks: seq<string>)
    ensures |CountAll(ks)| == 0 <==> |ks| == 0
  {
    if |ks| > 0 {
      BumpNonEmpty(CountAll(ks[..|ks| - 1]), ks[|ks| - 1]);
    }
  }

  /**
   * The summary starts with the file and function counts and ends with `.`;
   * the file-types clause is present iff there are files, the libraries clause iff
   * there are libraries.
   */
  lemma ProjectSummaryShape(files: seq<FileData>, libraries: seq<string>)
    ensures StartsWith(ProjectSummary(files, libraries), SummaryHead(|files|, FunctionCount(files)))
    ensures EndsWith(ProjectSummary(files, libraries), ".")
    ensures |SummaryParts(files, libraries)| == 1 + (if |files| > 0 then 1 else 0) + (if |libraries| > 0 then 1 else 0)
    ensures |files| > 0 ==> StartsWith(SummaryParts(files, libraries)[1], "File types: ")
    ensures |libraries| > 0 ==> StartsWith(SummaryParts(files, libraries)[|SummaryParts(files, libraries)| - 1], "Libraries: ")
  {
    var parts := SummaryParts(files, libraries);
    CountAllEmptyIff(FileTypes(files));
    CountAllEmptyIff(SummaryCategories(libraries));
    JoinStartsWithFirst(parts, ". ");
    var s := Join(parts, ". ");
    assert ProjectSummary(files, libraries) == s + ".";
    assert (s + ".")[..|parts[0]|] == parts[0];
  }

  /** The three category counts add up to the number of libraries, and no other category is counted. */
  lemma SummaryCategoryCounts(libraries: seq<string>)
    ensures TotalCount(CountAll(SummaryCategories(libraries))) == |libraries|
    ensures forall k :: k in Keys(CountAll(SummaryCategories(libraries))) ==> k in {"frontend", "backend", "utility"}
  {
    var cs := SummaryCategories(libraries);
    CountAllSpec(cs, "");
    forall k | k in Keys(CountAll(cs)) ensures k in {"frontend", "backend", "utility"} {
      assert k in Dedup(cs);
      var i :| 0 <= i < |cs| && cs[i] == k;
    }
  }

  /**
   * Each library falls in exactly one category, frontend checked first: a
   * frontend word wins, a backend word without a frontend word gives backend,
   * and a name with neither is a utility.
   */
  lemma CategoryPriority(libraryName: string)
    ensures SummaryCategory(libraryName) in {"frontend", "backend", "utility"}
    ensures Contains(Lower(libraryName), "react") ==> SummaryCategory(libraryName) == "frontend"
    ensures var n := Lower(libraryName);
      !Contains(n, "react") && !Contains(n, "vue") && !Contains(n, "angular") ==>
        SummaryCategory(libraryName) == (if Contains(n, "express") || Contains(n, "flask") || Contains(n, "fastapi") then "backend" else "utility")
    ensures SummaryCategory("express-react") == "frontend"
  {
    var n := Lower(libraryName);
    var front := ["react", "vue", "angular"];
    var back := ["express", "flask", "fastapi"];
    assert AnyContained(n, front) <==> Contains(n, front[0]) || Contains(n, front[1]) || Contains(n, front[2]);
    assert AnyContained(n, back) <==> Contains(n, back[0]) || Contains(n, back[1]) || Contains(n, back[2]);
    assert Contains(Lower("express-react")[8..], "react");
    ContainsAt(Lower("express-react"), 8, "react");
    assert AnyContained(Lower("express-react"), ["react", "vue", "angular"]) by {
      assert Contains(Lower("express-react"), ["react", "vue", "angular"][0]);
    }
    if Contains(Lower(libraryName), "react") {
      assert Contains(Lower(libraryName), ["react", "vue", "angular"][0]);
    }
  }

  /** An empty batch gives zero counts, no libraries, no cross-references and the bare head clause. */
  lemma EmptyBatchStatistics()
    ensures FunctionCount([]) == 0 && |LibraryNames([])| == 0 && CrossRefs(UsageMap([])) == []
    ensures ProjectSummary([], []) == "Project contains 0 files with 0 functions."
  {
  }
}
