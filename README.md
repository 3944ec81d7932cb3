# Structural indexer of the code-documentation backend

This project models, in Dafny, the structural indexer of a code-documentation
backend. The backend takes the files of an uploaded project, parses the
JavaScript/React and Python sources, and produces:

- the functions, classes and imports of each file;
- normalised external library names, with documentation records;
- file-to-file import edges and dependency sets;
- a symbol usage map and cross-references;
- deterministic summaries and statistics.

The repository has two or three variants of each component, and they behave
differently. Each variant is its own module:

| module | source file | what it holds |
|---|---|---|
| `FileParser` | `backend/app/core/file_parser.py` | extension table, parse dispatch, Python parsing over AST nodes, JS parsing over regex captures, file summary |
| `RealFileParser` | `backend/app/core/real_file_parser.py` | supported-file test, balanced-paren signature scan, JS/Python function and import extraction, `parse_all_files`, a class for `extract_zip`'s stored files |
| `ContextManager` | `backend/app/agents/context_manager_agent.py` | class `ContextManagerAgent`: agent status, progress, context memory, usage map, cross-references, dependency sets, project summary, statistics |
| `RealContextManager` | `backend/app/agents/real_context_manager_agent.py` | class `RealContextManagerAgent`: status records, stored file contents, relative-import resolution, import edges, usage map, summary, complexity metrics |
| `LibraryDoc` | `backend/app/agents/library_doc_agent.py` | import-name cleaning, library table, registry fall-through, browser APIs, categorisation |
| `RealLibraryDoc` | `backend/app/agents/real_library_doc_agent.py` | scoped library names, first-seen library extraction, library records, summary, usage text |
| `InternalDoc` | `backend/app/agents/internal_doc_agent.py` | file types, return-type inference (with its error path), structural file analysis, function cross-references |
| `EnhancedParser` | `backend/app/main_enhanced.py` | `EnhancedFileParser`: function entries, de-duplicated library entries, summary and link tables, the two project-wide counts |

Shared helper modules:

- `Wrappers`: `Option` and `Result`.
- `Strings`: Python's `split`, `join`, `lower`, `strip`, `startswith` and `endswith` on `seq<char>`.
- `Seqs`: first-seen de-duplication, flattening and element sets.
- `Dicts`: an insertion-ordered dictionary as a sequence of entries, with grouping into lists and a counter.
- `PyAst`: the abstract node sequence of an `ast.walk`.

Some things the code calls are not modelled themselves. They become
parameters of the model instead:

- **Regex matches.** `re.finditer` results arrive as captured strings, one sequence per pattern, in the order the patterns are tried.
- **Python AST.** `ast.parse` followed by `ast.walk` is a function from content to either a syntax error or a node sequence.
- **Registry lookups.** The npm and PyPI lookups are functions from a package name to an optional record.
- **File reads and clocks.** A file read is a `Result` holding the content or the error text. A timestamp is a parameter.
- **LLM text.** Text produced by the language model is a parameter.

Where a method loops or changes fields, the model is a method too. Its
`ensures` ties the result, or the new state, to a specification function.
Separate lemmas then prove what the source promises about that function.

## Model

| member | source | states |
|---|---|---|
| FileParser.PathName | backend/app/core/file_parser.py:177 | the file name of a path never contains `/` |
| FileParser.PathSuffix | backend/app/core/file_parser.py:40 | `Path(...).suffix` is empty or a `.` followed by at least one more character, with no `/` |
| FileParser.IsCodeFile | backend/app/core/file_parser.py:38-41 | a code file always has a suffix (its lower-cased suffix is a key of the extension table) |
| FileParser.GetFileType | backend/app/core/file_parser.py:43-46 | the type is one of `javascript`, `react`, `typescript`, `python` or `unknown` |
| FileParser.CodeFileIffKnownType | backend/app/core/file_parser.py:14-21 | a path is a code file exactly when its lower-cased suffix has a type other than `unknown` |
| FileParser.DispatchCoversCodeFiles | backend/app/core/file_parser.py:158-172 | every code file reaches one of the two parsers: its type is `python` or one of `javascript`, `react`, `typescript` |
| FileParser.SuffixShape | backend/app/core/file_parser.py:40 | a non-empty suffix is a `.` followed by at least one character and no further `.`, and it is a proper tail of the file name |
| FileParser.NameInDirectory | backend/app/core/file_parser.py:177 | the file name of `dir/name` is `name` |
| FileParser.NameSuffix | backend/app/core/file_parser.py:40 | the suffix of `dir/stem.ext` is `.ext` |
| FileParser.UpperCaseSuffix | backend/app/core/file_parser.py:16 | the suffix is lower-cased first, so `x.JSX` is a `react` file |
| FileParser.HiddenFileHasNoType | backend/app/core/file_parser.py:38-46 | a dot-file such as `dir/.py` has no suffix, so its type is `unknown` and it is not a code file |
| FileParser.LastSuffixCounts | backend/app/core/file_parser.py:19 | only the last suffix counts: `a.b.py` is a `python` file |
| FileParser.ParsePythonFile | backend/app/core/file_parser.py:48-94 | the record equals the Python parse of the read content: the node lists in walk order, or the empty error record when the read or the parse fails |
| FileParser.PythonParseOutcome | backend/app/core/file_parser.py:81-94 | the error is set exactly when the read or parse failed; then all lists are empty and the line count is 0; otherwise the line count is the number of newlines plus one |
| FileParser.PyFunctionsMember | backend/app/core/file_parser.py:61-67 | a function record is in the result exactly when some `FunctionDef` node produced it |
| FileParser.PythonFunctionRecords | backend/app/core/file_parser.py:61-67 | each function record holds the node's name, line, positional argument names and docstring, defaulting to `""` |
| FileParser.FromImportOncePerStatement | backend/app/core/file_parser.py:77-79 | a `from M import ...` statement adds `M` once, whatever the number of aliases, and nothing when the module is missing or empty |
| FileParser.ImportAddsAliases | backend/app/core/file_parser.py:74-76 | an `import a, b` statement adds every alias name, in order |
| FileParser.ParseJavaScriptFile | backend/app/core/file_parser.py:96-156 | functions come from the captures; imports have no duplicates and the same elements as the captures; the line count is newlines plus one; a failed read gives the empty error record |
| FileParser.DeclarationsOf | backend/app/core/file_parser.py:111-116 | one `function` record per declaration match, in match order, with parameters split from the captured list |
| FileParser.NamedOf | backend/app/core/file_parser.py:119-132 | one record of the given kind per arrow or method match, in order, always with no parameters |
| FileParser.JsFunctionsLayout | backend/app/core/file_parser.py:110-132 | all declaration records come first, then all arrow records, then all method records, each at its match's position |
| FileParser.ParametersShape | backend/app/core/file_parser.py:114 | there are at most (commas + 1) parameters, and each is non-empty, stripped and comma-free |
| FileParser.NonEmptyStrippedShape | backend/app/core/file_parser.py:114 | stripping pieces and dropping empty ones keeps at most as many pieces, all clean |
| FileParser.StripClean | backend/app/core/file_parser.py:114 | a stripped non-empty comma-free piece is a clean parameter |
| FileParser.AllCleanAppend | backend/app/core/file_parser.py:114 | joining two lists of clean parameters gives a list of clean parameters |
| FileParser.DedupElements | backend/app/core/file_parser.py:147 | de-duplication keeps exactly the set of elements |
| FileParser.ParseFile | backend/app/core/file_parser.py:158-172 | Python files get the Python parse, the JS family gets the JS parse, and any other type gets the `Unsupported file type` error record |
| FileParser.GetFileSummary | backend/app/core/file_parser.py:174-193 | the summary equals the header followed by the non-empty clauses in fixed order, joined by ` - ` |
| FileParser.FileSummaryHeaderOnly | backend/app/core/file_parser.py:174-193 | the summary always starts with `name (type)`, and it is only that header exactly when there are no functions, classes, imports or lines |
| RealFileParser.RealFileParser.constructor | backend/app/core/real_file_parser.py:10-12 | a new parser has no extracted files |
| RealFileParser.RealFileParser.ExtractZip | backend/app/core/real_file_parser.py:14-36 | an unreadable archive returns nothing and leaves the field; otherwise the field and the result are the supported, non-directory entries, with the last entry for a name winning |
| RealFileParser.ExtractedNamesSupported | backend/app/core/real_file_parser.py:23-30 | every extracted name is a supported file |
| RealFileParser.ExtractedLastWins | backend/app/core/real_file_parser.py:23-30 | a later supported entry overwrites the content stored for its name |
| RealFileParser.ExtractedSkips | backend/app/core/real_file_parser.py:23-30 | directories and unsupported names leave the result unchanged |
| RealFileParser.IsSupportedFile | backend/app/core/real_file_parser.py:38-40 | the case-sensitive extension test accepts a name exactly when it ends with a JS-family extension (`.js`, `.jsx`, `.ts`, `.tsx`) or a Python one (`.py`, `.pyx`) |
| RealFileParser.UpperCaseNotSupported | backend/app/core/real_file_parser.py:38-40 | the extension test is case-sensitive: `App.JS` is not supported |
| RealFileParser.SignatureEnd | backend/app/core/real_file_parser.py:174-184 | a found end lies after the scan start and just past a `)` |
| RealFileParser.SignatureEndSpec | backend/app/core/real_file_parser.py:174-184 | the scan stops at the first point where paren depth returns to 0; when it finds none, the depth stayed positive to the end |
| RealFileParser.ExtractFunctionSignature | backend/app/core/real_file_parser.py:167-187 | the loop returns the specification signature |
| RealFileParser.SignatureStart | backend/app/core/real_file_parser.py:170-180 | the scan starts at the first `(` with depth 1 |
| RealFileParser.SignatureCloses | backend/app/core/real_file_parser.py:174-184 | when depth first returns to 0 at position `e`, the signature is the text before `e` |
| RealFileParser.SignatureUnclosed | backend/app/core/real_file_parser.py:186-187 | when the parens never balance, the signature is the text before the first `(` |
| RealFileParser.SignatureWithoutParen | backend/app/core/real_file_parser.py:169-171 | text with no `(` is returned unchanged |
| RealFileParser.Signature | backend/app/core/real_file_parser.py:167-187 | the signature is always a prefix of the code and keeps at least everything before the first `(` |
| RealFileParser.SignatureStopsAtClose | backend/app/core/real_file_parser.py:174-184 | `f(a)b` gives `f(a)` |
| RealFileParser.SignatureUnbalancedKeepsName | backend/app/core/real_file_parser.py:186-187 | `g((x)` gives `g` |
| RealFileParser.DepthAppend | backend/app/core/real_file_parser.py:177-180 | paren depth is additive over concatenation |
| RealFileParser.RecordsOf | backend/app/core/real_file_parser.py:73-99 | one record per match, in order, holding the name, the signature and the stripped text |
| RealFileParser.RecordsAppend | backend/app/core/real_file_parser.py:73-99 | records of joined match lists are the joined records |
| RealFileParser.ExtractJsFunctions | backend/app/core/real_file_parser.py:68-99 | the nested pattern/match loop yields the specification records |
| RealFileParser.JsFunctionsOrder | backend/app/core/real_file_parser.py:68-99 | the records are the four patterns' records in pattern order; each record's signature is a prefix of its match text and its code is the stripped text |
| RealFileParser.ExtractJsImports | backend/app/core/real_file_parser.py:127-144 | the loop yields the concatenated captures |
| RealFileParser.JsImportsKeepDuplicates | backend/app/core/real_file_parser.py:127-144 | the imports are exactly the three patterns' captures in pattern order, so no duplicate is removed |
| RealFileParser.ExtractPythonFunctions | backend/app/core/real_file_parser.py:101-125 | one record per `FunctionDef` node in walk order; a syntax error gives no records |
| RealFileParser.PythonSignatureShape | backend/app/core/real_file_parser.py:114 | the signature of a two-argument function is `def name(p1, p2)` |
| RealFileParser.AppendImportNames | backend/app/core/real_file_parser.py:155-157 | an `import` statement appends its alias names in order |
| RealFileParser.AppendFromImports | backend/app/core/real_file_parser.py:158-161 | a `from` statement appends `M.a` for each alias `a` |
| RealFileParser.ExtractPythonImports | backend/app/core/real_file_parser.py:146-165 | the loop yields the specification imports of the walked nodes |
| RealFileParser.FromImportQualifies | backend/app/core/real_file_parser.py:158-161 | `from M import a, b` adds `M.a` then `M.b`; a missing module gives `.a` and `.b` |
| RealFileParser.FromImportOnePerAlias | backend/app/core/real_file_parser.py:158-161 | each alias adds exactly one qualified name, at its own position |
| RealFileParser.SyntaxErrorYieldsNothing | backend/app/core/real_file_parser.py:122-125 | a syntax error gives no functions and no imports |
| RealFileParser.ParseJavaScriptFile | backend/app/core/real_file_parser.py:42-53 | the record holds the file name, `javascript`, the content, the functions and the imports |
| RealFileParser.ParsePythonFile | backend/app/core/real_file_parser.py:55-66 | the record holds the file name, `python`, the content, the functions and the imports |
| RealFileParser.ParseAllFiles | backend/app/core/real_file_parser.py:189-203 | the loop yields the specification list of parsed files |
| RealFileParser.ParseAllSnoc | backend/app/core/real_file_parser.py:189-203 | the files are handled one by one, in input order |
| RealFileParser.ParseAllAppend | backend/app/core/real_file_parser.py:189-203 | parsing two batches one after the other equals parsing them joined |
| RealFileParser.ParseAllFaithful | backend/app/core/real_file_parser.py:189-203 | there are at most as many records as files, and each record comes from a stored supported file with its content unchanged |
| RealFileParser.SupportedFileKept | backend/app/core/real_file_parser.py:192-201 | a supported file adds exactly one record, carrying its content |
| ContextManager.ContextManagerAgent.constructor | backend/app/agents/context_manager_agent.py:9-18 | a new agent has empty maps, every agent `idle` and progress 0 |
| ContextManager.ContextManagerAgent.UpdateAgentStatus | backend/app/agents/context_manager_agent.py:20-22 | only the named agent's status changes |
| ContextManager.ContextManagerAgent.UpdateProgress | backend/app/agents/context_manager_agent.py:24-26 | progress becomes the smaller of the value and 1.0 |
| ContextManager.ContextManagerAgent.TrackAnalysisContext | backend/app/agents/context_manager_agent.py:138-145 | the path's context entry is replaced by the given time, the function and library counts and the summary |
| ContextManager.ContextManagerAgent.GetAnalysisContext | backend/app/agents/context_manager_agent.py:147-149 | the stored entry when the path is known, otherwise none |
| ContextManager.ContextManagerAgent.ClearContext | backend/app/agents/context_manager_agent.py:229-236 | the three maps are emptied, progress is 0, and every known agent becomes `idle` |
| ContextManager.ContextManagerAgent.BuildFunctionUsageMap | backend/app/agents/context_manager_agent.py:28-55 | the loop yields the specification usage map |
| ContextManager.UsageEventsLength | backend/app/agents/context_manager_agent.py:28-55 | each function and each import gives exactly one occurrence |
| ContextManager.TotalOccurrences | backend/app/agents/context_manager_agent.py:28-55 | the usage lists together hold as many occurrences as the files have functions plus imports |
| ContextManager.UsageMapKeys | backend/app/agents/context_manager_agent.py:28-55 | the keys are the names in first-appearance order, without duplicates |
| ContextManager.UsageMapOccurrences | backend/app/agents/context_manager_agent.py:28-55 | an occurrence is listed under a name exactly when some file produced it for that name |
| ContextManager.FileEventsShape | backend/app/agents/context_manager_agent.py:34-53 | a `defined` occurrence carries its function's line, and an `imported` occurrence has no line; both name their file |
| ContextManager.UsageEventsMember | backend/app/agents/context_manager_agent.py:32-53 | an occurrence belongs to the batch exactly when it belongs to one of its files |
| ContextManager.ValuesForMember | backend/app/agents/context_manager_agent.py:36-53 | a value is under a key exactly when that pair was appended |
| ContextManager.ContextManagerAgent.FindCrossReferences | backend/app/agents/context_manager_agent.py:57-71 | the loop yields the cross-references of the usage map |
| ContextManager.CrossRefsMember | backend/app/agents/context_manager_agent.py:57-71 | a reference is reported exactly for an entry with more than one occurrence |
| ContextManager.CrossRefsNamed | backend/app/agents/context_manager_agent.py:63 | a name is reported exactly when its list has more than one occurrence, even within one file |
| ContextManager.CrossRefsParallel | backend/app/agents/context_manager_agent.py:64-69 | `used_in` and `usage_types` run parallel to the occurrence list |
| ContextManager.CrossReferenceIff | backend/app/agents/context_manager_agent.py:57-71 | on the built usage map: reported exactly when there is more than one occurrence, and written as parallel lists |
| ContextManager.ContextManagerAgent.AnalyzeFileDependencies | backend/app/agents/context_manager_agent.py:73-90 | the loop yields the specification dependencies; every key and target is a batch file, and there is no self-edge |
| ContextManager.DependenciesWellFormed | backend/app/agents/context_manager_agent.py:73-90 | the dependencies never include a self-edge or a target outside the batch |
| ContextManager.DependenciesOfJustified | backend/app/agents/context_manager_agent.py:73-90 | every edge comes from an import of its source file |
| ContextManager.DependenciesOfAdds | backend/app/agents/context_manager_agent.py:77-88 | every matching import adds its target |
| ContextManager.ImportPairsMember | backend/app/agents/context_manager_agent.py:77-81 | the import pairs are exactly the (file, import) pairs of the batch |
| ContextManager.DependenciesIff | backend/app/agents/context_manager_agent.py:73-90 | `t` is a target of `k` exactly when `t` is another batch file that some import of `k` matches |
| ContextManager.ImportMatchesFile | backend/app/agents/context_manager_agent.py:92-101 | equal stems match whatever their case, and matching stems have the same length (the comparison only folds case) |
| ContextManager.RelativeImportMatchIff | backend/app/agents/context_manager_agent.py:92-101 | `./x` matches `y.ext` exactly when `x` and `y` agree ignoring case |
| ContextManager.SubdirectoryFilesNeverMatch | backend/app/agents/context_manager_agent.py:92-101 | a file whose base name still holds a `/` never matches an import |
| ContextManager.SampleImportMatches | backend/app/agents/context_manager_agent.py:92-101 | `./SearchBar` matches `SearchBar.js` and not `SearchResults.js` |
| ContextManager.ContextManagerAgent.GenerateProjectSummary | backend/app/agents/context_manager_agent.py:103-136 | the method yields the specification summary |
| ContextManager.ProjectSummaryShape | backend/app/agents/context_manager_agent.py:103-136 | the summary starts with `Project contains n files with m functions` and ends with `.`; the `File types: ` clause appears, second, exactly when there are files, and the `Libraries: ` clause, last, exactly when there are libraries |
| ContextManager.SummaryCategoryCounts | backend/app/agents/context_manager_agent.py:115-123 | the category counts sum to the number of libraries, over the three categories only |
| ContextManager.CategoryPriority | backend/app/agents/context_manager_agent.py:114-123 | every library gets one of three categories; a frontend word (`react` anywhere, say) makes it `frontend` first; without one, a backend word (`express`, `flask`, `fastapi`) makes it `backend`, and otherwise it is `utility` |
| ContextManager.CountCategories | backend/app/agents/context_manager_agent.py:115-123 | the loop counts each category once per library |
| ContextManager.CountAllEmptyIff | backend/app/agents/context_manager_agent.py:109-112 | the type counter is empty exactly when there are no files |
| ContextManager.CoordinateAgents | backend/app/agents/context_manager_agent.py:151-182 | every stage gives a status for each of the three agents |
| ContextManager.CoordinationStages | backend/app/agents/context_manager_agent.py:151-182 | only the stage's own agent is `active`; the context manager is `active` for every known stage; library docs complete only after internal docs; an unknown stage leaves all `idle` |
| ContextManager.ContextManagerAgent.GetAnalysisStatistics | backend/app/agents/context_manager_agent.py:184-217 | file and function totals, per-type counts, an average of 0 with no files, the distinct library count, and a cross-reference count equal to the number of cross-references found for the same files |
| ContextManager.TallyFiles | backend/app/agents/context_manager_agent.py:197-200 | the loop yields the function total and the per-type counts |
| ContextManager.CollectLibraryNames | backend/app/agents/context_manager_agent.py:207-211 | the loop yields the set of the files' external library names |
| ContextManager.FunctionCountOfNoFunctions | backend/app/agents/context_manager_agent.py:197-198 | a batch without functions has 0 functions |
| ContextManager.EmptyBatchStatistics | backend/app/agents/context_manager_agent.py:103-217 | an empty batch has no functions, libraries or references, and the summary `Project contains 0 files with 0 functions.` |
| RealContextManager.RealContextManagerAgent.constructor | backend/app/agents/real_context_manager_agent.py:8-13 | a new agent has empty status, contents, references, summary and libraries |
| RealContextManager.RealContextManagerAgent.UpdateStatus | backend/app/agents/real_context_manager_agent.py:15-25 | the upload's record is created or overwritten with the status, progress, message and time; other uploads keep theirs |
| RealContextManager.RealContextManagerAgent.GetStatus | backend/app/agents/real_context_manager_agent.py:27-33 | the stored record for a known upload, the `not_found` record otherwise |
| RealContextManager.RealContextManagerAgent.StoreFileContent | backend/app/agents/real_context_manager_agent.py:35-37 | the file's content is set, replacing any earlier one in place |
| RealContextManager.WithJs | backend/app/agents/real_context_manager_agent.py:76-77 | the result always ends with `.js` |
| RealContextManager.WithJsAppends | backend/app/agents/real_context_manager_agent.py:76-77 | a name that does not end in `s` gets `.js` appended |
| RealContextManager.ResolveImportPath | backend/app/agents/real_context_manager_agent.py:70-90 | an import that starts with neither `./` nor `../` resolves to nothing |
| RealContextManager.ResolvedEndsWithJs | backend/app/agents/real_context_manager_agent.py:70-90 | every resolved path ends with `.js` |
| RealContextManager.ResolveSameDirectory | backend/app/agents/real_context_manager_agent.py:72-78 | `./name` always resolves, to the current directory's parts followed by the name with `.js` |
| RealContextManager.ResolveParentDirectory | backend/app/agents/real_context_manager_agent.py:79-90 | `../name` resolves exactly when the path has two or more parts, and then two parts are dropped |
| RealContextManager.ResolveAtTop | backend/app/agents/real_context_manager_agent.py:78 | with no directory, `./name` resolves to the bare name with `.js` |
| RealContextManager.ResolveInDirectory | backend/app/agents/real_context_manager_agent.py:74-78 | `dir/file` with `./name` gives `dir/name.js` |
| RealContextManager.ResolveOneUp | backend/app/agents/real_context_manager_agent.py:81-88 | `a/b/file` with `../name` gives `a/name.js` |
| RealContextManager.DotSlashImport | backend/app/agents/real_context_manager_agent.py:72-75 | a `./` import loses exactly its two-character prefix |
| RealContextManager.DotDotSlashImport | backend/app/agents/real_context_manager_agent.py:79-85 | a `../` import takes the parent branch and loses its three-character prefix |
| RealContextManager.ResolveSampleImport | backend/app/agents/real_context_manager_agent.py:70-90 | `./SearchBar` from `SearchResults.js` gives `SearchBar.js` |
| RealContextManager.ResolveJsxImport | backend/app/agents/real_context_manager_agent.py:76-77 | `./B.jsx` from `src/A.js` gives `src/B.jsx.js` |
| RealContextManager.ResolveDoubleParent | backend/app/agents/real_context_manager_agent.py:85 | only one `../` is stripped: for any slash-free `a`, `b`, `f` and any `r` not ending in `s`, `../../r` from `a/b/f` gives `a/../r.js` |
| RealContextManager.RealContextManagerAgent.FindCrossReferences | backend/app/agents/real_context_manager_agent.py:39-68 | the result is the edges of every stored file, and it replaces the stored references |
| RealContextManager.EdgesOfFile | backend/app/agents/real_context_manager_agent.py:51-65 | one file's edges over all its captures, in pattern order |
| RealContextManager.EdgesOfMatches | backend/app/agents/real_context_manager_agent.py:53-65 | one pattern's edges, in match order |
| RealContextManager.EdgesForMember | backend/app/agents/real_context_manager_agent.py:57-65 | an edge exists exactly for a local import that resolves to a stored file, and it is described as `from imports to` |
| RealContextManager.EdgesForAppend | backend/app/agents/real_context_manager_agent.py:51-65 | the edges of joined import lists are the joined edges |
| RealContextManager.EdgesRepeat | backend/app/agents/real_context_manager_agent.py:60 | a repeated import repeats its edges, with no de-duplication |
| RealContextManager.CrossReferenceEdgesShape | backend/app/agents/real_context_manager_agent.py:39-68 | every edge starts at a stored file and ends at a stored `.js` file |
| RealContextManager.AllCapturesOrder | backend/app/agents/real_context_manager_agent.py:45-53 | captures are taken pattern by pattern |
| RealContextManager.RealContextManagerAgent.BuildFunctionUsageMap | backend/app/agents/real_context_manager_agent.py:143-158 | the loop yields the specification usage map |
| RealContextManager.UsageMapLists | backend/app/agents/real_context_manager_agent.py:143-158 | a name's list is the files that define it, in order, one entry per definition; the empty name has nothing |
| RealContextManager.UsageListsByFile | backend/app/agents/real_context_manager_agent.py:147-156 | the grouped filenames of a name are the defining files, duplicates kept |
| RealContextManager.NameEventsValues | backend/app/agents/real_context_manager_agent.py:151-156 | within one file, a name gets the filename once per definition |
| RealContextManager.ValuesForAppend | backend/app/agents/real_context_manager_agent.py:147-156 | grouping is additive over joined event lists |
| RealContextManager.RealContextManagerAgent.GenerateProjectSummary | backend/app/agents/real_context_manager_agent.py:92-141 | the specification summary is returned; it is stored only when there are files |
| RealContextManager.TallySummary | backend/app/agents/real_context_manager_agent.py:98-113 | the loop yields the per-extension counts, the function total and the library name set |
| RealContextManager.AddNames | backend/app/agents/real_context_manager_agent.py:112-113 | the loop adds the library names to the set |
| RealContextManager.SummaryClausesOf | backend/app/agents/real_context_manager_agent.py:116-137 | the method yields the specification clauses |
| RealContextManager.SummaryClausesShape | backend/app/agents/real_context_manager_agent.py:116-137 | the size clause comes first, then the function clause when there are functions; each optional clause counts once |
| RealContextManager.SummaryShape | backend/app/agents/real_context_manager_agent.py:92-141 | the parts are joined by single spaces; several files give `n files`; `with n functions` appears only when n > 0 |
| RealContextManager.SingleFileClause | backend/app/agents/real_context_manager_agent.py:118-119 | a single `.js` file is described as `Single 1 file`, any other single file as `Single JavaScript file` |
| RealContextManager.SingleFileTypes | backend/app/agents/real_context_manager_agent.py:102-104 | one file gives one type with count 1 |
| RealContextManager.SingleSizeClause | backend/app/agents/real_context_manager_agent.py:118-119 | the size clause reads the `js` count when there is one |
| RealContextManager.RealContextManagerAgent.AnalyzeCodeComplexity | backend/app/agents/real_context_manager_agent.py:160-189 | counts all files, sums over files with stored content, and takes averages that are 0 with no files |
| RealContextManager.ContentlessFileAddsNothing | backend/app/agents/real_context_manager_agent.py:168-180 | a file with no or empty stored content adds nothing to the totals |
| RealContextManager.StoredFileAdds | backend/app/agents/real_context_manager_agent.py:168-180 | a file with content adds its line count, its function count and its import count |
| LibraryDoc.CleanImportName | backend/app/agents/library_doc_agent.py:84-110 | the step-by-step rewriting yields the specification cleaned name |
| LibraryDoc.CleanName | backend/app/agents/library_doc_agent.py:84-110 | an empty import gives no name, and a name that is given is never empty |
| LibraryDoc.CleanNameShape | backend/app/agents/library_doc_agent.py:90-110 | a cleaned name is non-empty, lower-case, and has no `/` and no `.` |
| LibraryDoc.ScopedPackageKeepsSecondSegment | backend/app/agents/library_doc_agent.py:93-96 | `@scope/name/rest` keeps `name` |
| LibraryDoc.BareScopeDropsAt | backend/app/agents/library_doc_agent.py:97-98 | a bare `@scope` becomes `scope` |
| LibraryDoc.RemoveSuffixesBound | backend/app/agents/library_doc_agent.py:105-108 | suffix removal leaves a prefix, shortened by at most the suffixes' total length |
| LibraryDoc.SuffixRemovedOnce | backend/app/agents/library_doc_agent.py:105-108 | each suffix is removed at most once: any `stem-js-js` becomes `stem-js` |
| LibraryDoc.BrowserApiCaseInsensitive | backend/app/agents/library_doc_agent.py:180-205 | the lookup ignores case and succeeds exactly for the four table names |
| LibraryDoc.TableWinsOverRegistries | backend/app/agents/library_doc_agent.py:115-117 | a predefined library gets its table record, whatever the registries say |
| LibraryDoc.NpmBeforePypi | backend/app/agents/library_doc_agent.py:119-122 | an npm record wins over PyPI |
| LibraryDoc.PypiBeforeBrowserApi | backend/app/agents/library_doc_agent.py:124-132 | with no table entry and no npm answer, a PyPI record is returned even for a browser API name |
| LibraryDoc.CheckBrowserApi | backend/app/agents/library_doc_agent.py:180-205 | a browser API record always has a link, and it points into the MDN Web API reference |
| LibraryDoc.GetLibraryInfo | backend/app/agents/library_doc_agent.py:112-139 | without a registry answer, a record lacks a link exactly when it is the basic `External library` record: table and browser API records all carry one |
| LibraryDoc.FallbackRecord | backend/app/agents/library_doc_agent.py:134-139 | with nothing found, the record has the input name and no link |
| LibraryDoc.AnalyzeLibraries | backend/app/agents/library_doc_agent.py:67-82 | the nested loop yields the records of the library map |
| LibraryDoc.LibraryMapKeys | backend/app/agents/library_doc_agent.py:67-82 | the map has one entry per distinct cleaned name, first occurrence first, each holding that name's record |
| LibraryDoc.AnalyzedLibrariesSpec | backend/app/agents/library_doc_agent.py:67-82 | there is exactly one record per distinct cleaned name, in first-seen order |
| LibraryDoc.CleanedNamesFromImports | backend/app/agents/library_doc_agent.py:73-77 | every cleaned name is non-empty and comes from some import |
| LibraryDoc.CategorizeLibraries | backend/app/agents/library_doc_agent.py:212-241 | the loop yields the five specification lists |
| LibraryDoc.CategoriesAlwaysPresent | backend/app/agents/library_doc_agent.py:214-220 | all five category keys are always present, in order |
| LibraryDoc.CategoriesPartition | backend/app/agents/library_doc_agent.py:227-239 | the list lengths sum to the number of libraries |
| LibraryDoc.InCategoryMember | backend/app/agents/library_doc_agent.py:227-239 | a library is in a list exactly when it is an input with that category |
| LibraryDoc.CategoryMembership | backend/app/agents/library_doc_agent.py:227-239 | each input library is in exactly one of the five lists |
| LibraryDoc.CategoryIgnoresCase | backend/app/agents/library_doc_agent.py:228-231 | names are compared lower-cased: `React` is `frontend` |
| RealLibraryDoc.ExtractLibraryName | backend/app/agents/real_library_doc_agent.py:81-91 | the name of an import path that does not start with `@` holds no `/` |
| RealLibraryDoc.ScopedLibraryName | backend/app/agents/real_library_doc_agent.py:81-91 | `@scope/name/rest` gives `@scope/name`, and a bare `@scope` is kept as it is |
| RealLibraryDoc.UnscopedLibraryName | backend/app/agents/real_library_doc_agent.py:89-91 | an unscoped path gives its first `/` segment |
| RealLibraryDoc.LibraryNameStartsWithFirstSegment | backend/app/agents/real_library_doc_agent.py:81-91 | every name starts with the path's first segment |
| RealLibraryDoc.NamesOfNonEmpty | backend/app/agents/real_library_doc_agent.py:72-77 | the kept names are exactly the non-empty names of the paths |
| RealLibraryDoc.ExtractLibraries | backend/app/agents/real_library_doc_agent.py:58-79 | the loop yields the first-seen distinct names |
| RealLibraryDoc.ExtractedLibrariesSpec | backend/app/agents/real_library_doc_agent.py:58-79 | no duplicates and no empty name; a name is listed exactly when some import path gives it |
| RealLibraryDoc.AnalyzeLibraries | backend/app/agents/real_library_doc_agent.py:46-56 | the loop yields one record per extracted library |
| RealLibraryDoc.AnalyzedLibrariesNames | backend/app/agents/real_library_doc_agent.py:46-56 | exactly one record per library, in order, named after it |
| RealLibraryDoc.GetLibraryInfo | backend/app/agents/real_library_doc_agent.py:93-116 | every record, from the table, npm, PyPI or the fallback, carries the queried name, and its type is `npm`, `pypi` or `unknown` |
| RealLibraryDoc.MappingWins | backend/app/agents/real_library_doc_agent.py:95-97 | a mapped library gets its table record, whatever the registries say |
| RealLibraryDoc.FallbackPointsAtNpm | backend/app/agents/real_library_doc_agent.py:109-116 | the fallback is of type `unknown`, and both its link and its docs are the npm package URL |
| RealLibraryDoc.LibraryInfoLinks | backend/app/agents/real_library_doc_agent.py:93-163 | every record has docs; outside the table and PyPI, the link and docs are the npm URL |
| RealLibraryDoc.GetLibrarySummary | backend/app/agents/real_library_doc_agent.py:165-178 | the loop yields one summary entry per library |
| RealLibraryDoc.LibrarySummarySpec | backend/app/agents/real_library_doc_agent.py:165-178 | the same length and names, the link copied, and the docs defaulting to the link |
| RealLibraryDoc.DetermineUsage | backend/app/agents/real_library_doc_agent.py:180-193 | an unlisted library gets a usage text that names it |
| InternalDoc.GetFileType | backend/app/agents/internal_doc_agent.py:118-127 | the type is one of `python`, `javascript`, `typescript` or `unknown`, and it is `python` exactly for names ending in `.py` |
| InternalDoc.InferReturnType | backend/app/agents/internal_doc_agent.py:165-186 | a return type is inferred exactly for Python files, where it is `bool` or `Any`; every other file type raises |
| InternalDoc.JsxIsJavaScript | backend/app/agents/internal_doc_agent.py:122-123 | `.jsx` files are `javascript` |
| InternalDoc.TsxIsTypeScript | backend/app/agents/internal_doc_agent.py:124-125 | `.tsx` files are `typescript` |
| InternalDoc.PyxIsUnknown | backend/app/agents/internal_doc_agent.py:118-127 | `.pyx` files are `unknown` |
| InternalDoc.PythonReturnType | backend/app/agents/internal_doc_agent.py:167-177 | for Python, the type is `bool` exactly when the lower-cased name starts with `is_` or `has_`, and `Any` otherwise |
| InternalDoc.OtherReturnTypeRaises | backend/app/agents/internal_doc_agent.py:178-186 | for every other file type, inference fails with the missing-`startsWith` error |
| InternalDoc.AnalyzeFile | backend/app/agents/internal_doc_agent.py:90-116 | the loop yields the specification analysis, or the inference error |
| InternalDoc.AnalyzedFileSpec | backend/app/agents/internal_doc_agent.py:90-116 | fails exactly for a non-Python file with functions; otherwise it records the last path segment, the file type, the stripped summary, the line count (default 0), and one function per parsed function, in order, with its name, its parameters (default `[]`) and its line number |
| InternalDoc.DocumentFunctionsFails | backend/app/agents/internal_doc_agent.py:100-108 | documenting fails exactly when the file is not Python and has a function to document |
| InternalDoc.DocumentFunctionsKeeps | backend/app/agents/internal_doc_agent.py:100-108 | a successful run keeps each function's name, parameters and line, in order |
| InternalDoc.DocumentLast | backend/app/agents/internal_doc_agent.py:100-108 | the last function's record is appended after the earlier ones |
| InternalDoc.DocumentFunctionsErrorSticks | backend/app/agents/internal_doc_agent.py:100-108 | once inference fails, the rest of the list does not change the outcome |
| InternalDoc.BuildFunctionMap | backend/app/agents/internal_doc_agent.py:192-200 | the nested loop yields the specification function map |
| InternalDoc.AddFileFunctions | backend/app/agents/internal_doc_agent.py:195-200 | one file's functions are grouped onto the map |
| InternalDoc.FindCrossReferences | backend/app/agents/internal_doc_agent.py:188-210 | the loop yields the references of the function map |
| InternalDoc.CrossReferenceIff | backend/app/agents/internal_doc_agent.py:188-210 | a name is reported, with its files, exactly when it is defined more than once |
| InternalDoc.CrossRefsMember | backend/app/agents/internal_doc_agent.py:203-208 | a reference is reported exactly for an entry listing more than one file |
| InternalDoc.CrossRefsListed | backend/app/agents/internal_doc_agent.py:203-208 | on a map with distinct keys, reported exactly with the name's full list of more than one file |
| InternalDoc.ReportedWhenRepeated | backend/app/agents/internal_doc_agent.py:203-208 | a name listed more than once is reported |
| InternalDoc.ReportedOnlyAsListed | backend/app/agents/internal_doc_agent.py:203-208 | a reported name carries exactly its list |
| InternalDoc.EventsOf | backend/app/agents/internal_doc_agent.py:194-200 | a (function, file) pair is recorded exactly when that file defines the function |
| InternalDoc.ValuesForDefine | backend/app/agents/internal_doc_agent.py:194-200 | every file listed under a name defines it |
| InternalDoc.ValuesForEvent | backend/app/agents/internal_doc_agent.py:198-200 | a value grouped under a key comes from a recorded pair |
| InternalDoc.RepeatInOneFileIsReported | backend/app/agents/internal_doc_agent.py:204 | a function defined twice in one file is reported, with that file twice |
| EnhancedParser.GetFunctionSummary | backend/app/main_enhanced.py:87-100 | a name outside the summary table gets a summary that mentions it |
| EnhancedParser.SummaryDefaultIff | backend/app/main_enhanced.py:87-100 | the default summary is given exactly to names outside the table; a listed name gets its table text |
| EnhancedParser.KnownSummaryNotDefault | backend/app/main_enhanced.py:89-99 | no table summary equals a default summary |
| EnhancedParser.GetLibraryLink | backend/app/main_enhanced.py:102-110 | every link, from the table or the npm fallback, is an `https://` address |
| EnhancedParser.LibraryLinkIff | backend/app/main_enhanced.py:102-110 | the npm link is given exactly to names outside the four-entry table; a listed name gets its table link |
| EnhancedParser.TableLink | backend/app/main_enhanced.py:104-109 | no table link is an npm `www` link |
| EnhancedParser.SecureLink | backend/app/main_enhanced.py:104-109 | an `https://` link whose host does not start with `w` differs from the npm link |
| EnhancedParser.EntriesAppend | backend/app/main_enhanced.py:53-60 | the entries of joined match lists are the joined entries |
| EnhancedParser.AddFunctionEntries | backend/app/main_enhanced.py:55-60 | one pattern's matches are appended to the entries in order |
| EnhancedParser.ExtractFunctions | backend/app/main_enhanced.py:44-62 | the loop yields the specification entries |
| EnhancedParser.ExtractedFunctionsByPattern | backend/app/main_enhanced.py:44-62 | the entries are those of the three patterns, in pattern order |
| EnhancedParser.EntriesLayout | backend/app/main_enhanced.py:53-60 | each match keeps its position and name, and every entry carries its name's summary |
| EnhancedParser.ExtractedFunctionsLayout | backend/app/main_enhanced.py:44-62 | one entry per match per pattern, in order, with no de-duplication across patterns |
| EnhancedParser.LibraryNamesOf | backend/app/main_enhanced.py:79-83 | the entries' names are exactly the listed names |
| EnhancedParser.AddLibraries | backend/app/main_enhanced.py:75-83 | one pattern's matches add each new name once, in first-seen order |
| EnhancedParser.ExtractLibraries | backend/app/main_enhanced.py:64-85 | the loop yields the specification library entries |
| EnhancedParser.ExtractedLibrariesDistinct | backend/app/main_enhanced.py:64-85 | names are distinct, there are no more entries than import paths, and each entry carries its name's link |
| EnhancedParser.ExtractedLibrariesSound | backend/app/main_enhanced.py:76-77 | every name is some path's text before its first `/`, and contains no `/` |
| EnhancedParser.ExtractedLibrariesComplete | backend/app/main_enhanced.py:73-83 | every import path's library is listed |
| EnhancedParser.ExtractedLibrariesOrder | backend/app/main_enhanced.py:79-83 | entries follow the first appearance of their names |
| EnhancedParser.LibraryName | backend/app/main_enhanced.py:77 | the library name is the prefix of the import path before its first `/`, and holds no `/` |
| EnhancedParser.PackageOfSubmodule | backend/app/main_enhanced.py:77 | `pkg/sub` gives `pkg` |
| EnhancedParser.PackageOfRelative | backend/app/main_enhanced.py:77 | a relative `./x` import gives the library `.` |
| EnhancedParser.SubmoduleAndRelativeNames | backend/app/main_enhanced.py:77 | a submodule and two relative imports give `pkg`, `.`, `.` |
| EnhancedParser.RepeatedNameListedOnce | backend/app/main_enhanced.py:79 | a repeated name is listed once |
| EnhancedParser.SubmoduleAndRelativeImports | backend/app/main_enhanced.py:64-85 | those imports give two entries, `pkg` and `.`, each with its link |
| EnhancedParser.TwoLibraryEntries | backend/app/main_enhanced.py:80-83 | two names give two entries with their links |
| EnhancedParser.TotalFunctionsFlat | backend/app/main_enhanced.py:250 | the function total is the length of all function lists joined |
| EnhancedParser.TotalLibrariesSpec | backend/app/main_enhanced.py:251 | the library total is the number of distinct names across files, and at most the number of all names |
| EnhancedParser.SharedLibraryCountsOnce | backend/app/main_enhanced.py:251 | a library used by two files counts once |

## Left out

- Archive and file I/O: `extract_zip` in `backend/app/core/file_parser.py:23-36` and `backend/app/main_enhanced.py:31-42`, and the `open()` calls, are not modelled. The parsers take the read outcome as a `Result`. `RealFileParser.RealFileParser.ExtractZip` takes the archive's entry list, already read and decoded, or the error.
- Regex matching (`re.finditer`, lazy `.*?`, `DOTALL`, non-overlapping matches) is not modelled. Every extractor takes a function from content to its captures per pattern.
- Python `ast.parse`, `ast.walk`, `ast.get_docstring` and `ast.unparse` are not modelled. A parse is a function from content to a node sequence or the syntax-error text.
- The npm and PyPI HTTP lookups (`_fetch_npm_info`, `_fetch_pypi_info` in both library agents) are not modelled. They are oracle functions returning an optional record, and their JSON field defaults are part of what the oracle returns.
- `MockNeMoLLM`, `LLMChain` and the prompt templates in `backend/app/agents/internal_doc_agent.py` are not modelled. The generated file summary and function documentation are parameters. The model keeps only their `strip()`.
- Clocks (`datetime.now`) are not modelled: timestamps are parameters.
- Floats are not modelled: progress and averages are `real`, with no rounding.
- `str.lower()` is modelled for ASCII letters only.
- `Path(...).suffix` and `Path(...).name` are modelled on `/`-separated strings. The rule that a dot-file has no suffix is kept; other path normalisation is not.
- RealContextManager.RealContextManagerAgent.GenerateProjectSummary: the three `'react'`, `'search'` and `'debounce'` substring tests on `str(file)` depend on Python's dict repr and are not modelled. They arrive as three booleans (`ContentMentions`).
- RealContextManager.RealContextManagerAgent.AnalyzeCodeComplexity: the import count, a `re.findall`, is an oracle parameter.
- `export_context` (`backend/app/agents/context_manager_agent.py:219-227`) returns a snapshot of the fields and is not modelled.
- `get_comprehensive_analysis` (`backend/app/agents/real_context_manager_agent.py:191-200`) only bundles the other results and is not modelled.
- `get_library_usage_context` (`backend/app/agents/library_doc_agent.py:207-210`) returns fixed prose and is not modelled.
- The FastAPI endpoints, background tasks and `uploads`/`analysis_status` globals (`backend/app/main_enhanced.py:114-295`, and the other `main` files) are orchestration and are not modelled. Only the two counts at lines 250-251 are.
- ContextManager.ContextManagerAgent.AnalyzeFileDependencies: the result is a Dafny `map` to `set`, so the dict's insertion order is not modelled.
- FileParser.ParseJavaScriptFile: the imports are stated only up to order, because `list(set(...))` has no specified order. The method returns them in first-seen order.
- RealLibraryDoc.ExtractLibraries: the per-pattern nested loop is one loop over the captures joined in pattern order, which gives the same result.
- ContextManager.ContextManagerAgent.GetAnalysisStatistics: `most_common_libraries` is always `[]` in the source, and the model keeps it so.

Notes on the code as written (the model follows the code):

- In `backend/app/agents/library_doc_agent.py:92`, the comment says `@angular/core` becomes `angular`. The code keeps the second segment, `core`, and `LibraryDoc.ScopedPackageKeepsSecondSegment` states that.
- `backend/app/agents/real_context_manager_agent.py:119` looks up the `js` count, so a single `.js` file is described as `Single 1 file` (`RealContextManager.SingleFileClause`).
- `backend/app/agents/internal_doc_agent.py:179-184` calls `str.startsWith`, which Python does not have. Every non-Python file with a function therefore fails; this is the model's `Err` outcome.
- A cross-reference in `backend/app/agents/context_manager_agent.py:63` and `backend/app/agents/internal_doc_agent.py:204` qualifies on the number of occurrences, not on distinct files.
- `from M import a, b` adds `M` once in `backend/app/core/file_parser.py:77-79`, and `M.a`, `M.b` in `backend/app/core/real_file_parser.py:158-161`.
- A failed parse in `backend/app/core/file_parser.py:87-94` reports a line count of 0.
