/**
 * The first file parser, backend/app/core/file_parser.py: file types from the
 * path suffix, parse dispatch, the Python parser over walked syntax nodes, the
 * JavaScript parser over pattern captures, and the one-line file summary.
 * File reading is an input: the content read, or the error message.
 */
module FileParser {
  import opened Wrappers
  import opened Strings
  import opened Seqs
  import opened PyAst

  // ---------------------------------------------------------------------------
  // Paths and file types

  /** `Path(path).name`: the last `/` component. */
  function PathName(path: string): (r: string)
    ensures '/' !in r
  {
    After(path, '/')
  }

  /**
   * `Path(path).suffix`: from the name's last `.`, unless that dot is first or
   * last in the name; a suffix is a `.` and at least one more character, and
   * holds no `/`.
   */
  function PathSuffix(path: string): (r: string)
    ensures r == "" || (|r| >= 2 && r[0] == '.' && '/' !in r)
  {
    var name := PathName(path);
    var i := RFind(name, '.');
    if 0 < i < |name| - 1 then
      assert forall j :: 0 <= j < |name[i..]| ==> name[i..][j] == name[i + j];
      name[i..]
    else ""
  }

  const SupportedExtensions: map<string, string> := map[
    ".js" := "javascript",
    ".jsx" := "react",
    ".ts" := "typescript",
    ".tsx" := "react",
    ".py" := "python",
    ".pyx" := "python"]

  /** A code file's lower-cased suffix is one of the six extensions, so a code file has a suffix. */
  predicate IsCodeFile(path: string)
    ensures IsCodeFile(path) ==> PathSuffix(path) != ""
  {
    Lower(PathSuffix(path)) in SupportedExtensions
  }

  /** The type of the lower-cased suffix, one of five names. */
  function GetFileType(path: string): (r: string)
    ensures r in {"javascript", "react", "typescript", "python", "unknown"}
  {
    var ext := Lower(PathSuffix(path));
    if ext in SupportedExtensions then SupportedExtensions[ext] else "unknown"
  }

  predicate IsJsFamily(fileType: string)
  {
    fileType == "javascript" || fileType == "react" || fileType == "typescript"
  }

  // ---------------------------------------------------------------------------
  // Records

  datatype FunctionRecord =
    | PyFunction(name: string, lineNumber: int, parameters: seq<string>, docstring: string)
    | JsFunction(name: string, parameters: seq<string>, kind: string)

  datatype ClassRecord = ClassRecord(name: string, lineNumber: int, docstring: string)

  /** A parse result; `classes` is absent from JavaScript and unsupported-file results. */
  datatype ParseResult = ParseResult(
    functions: seq<FunctionRecord>,
    classes: Option<seq<ClassRecord>>,
    imports: seq<string>,
    lineCount: nat,
    error: Option<string>)

  /**
   * The captures of the JavaScript patterns over one content string, each in
   * match order: `function name(params)` (name and parameter text),
   * `const name = (…) =>`, `name(…) {`, and the three import patterns
   * (`import … from '…'`, `require('…')`, `import '…'`).
   */
  datatype JsCaptures = JsCaptures(
    functionMatches: seq<(string, string)>,
    arrowMatches: seq<string>,
    methodMatches: seq<string>,
    fromImports: seq<string>,
    requireImports: seq<string>,
    bareImports: seq<string>)

  /** `len(content.split('\n'))`. */
  function LineCount(content: string): nat
  {
    |Split(content, '\n')|
  }

  // ---------------------------------------------------------------------------
  // Python parsing

  function PyFunctionOf(n: Node): FunctionRecord
    requires n.FunctionDef?
  {
    PyFunction(n.name, n.lineno, n.args, n.docstring.GetOr(""))
  }

  function PyClassOf(n: Node): ClassRecord
    requires n.ClassDef?
  {
    ClassRecord(n.name, n.lineno, n.docstring.GetOr(""))
  }

  function PyFunctions(nodes: seq<Node>): seq<FunctionRecord>
  {
    if |nodes| == 0 then []
    else
      var n := nodes[|nodes| - 1];
      PyFunctions(nodes[..|nodes| - 1]) + (if n.FunctionDef? then [PyFunctionOf(n)] else [])
  }

  function PyClasses(nodes: seq<Node>): seq<ClassRecord>
  {
    if |nodes| == 0 then []
    else
      var n := nodes[|nodes| - 1];
      PyClasses(nodes[..|nodes| - 1]) + (if n.ClassDef? then [PyClassOf(n)] else [])
  }

  /** The imports one node contributes: every alias of `import`, the module once for `from M import …` when `M` is non-empty. */
  function NodeImports(n: Node): seq<string>
  {
    match n
    case Import(names) => names
    case ImportFrom(m, _) => if m.Some? && m.value != "" then [m.value] else []
    case _ => []
  }

  function PyImports(nodes: seq<Node>): seq<string>
  {
    if |nodes| == 0 then [] else PyImports(nodes[..|nodes| - 1]) + NodeImports(nodes[|nodes| - 1])
  }

  function PythonFailure(message: string): ParseResult
  {
    ParseResult([], Some([]), [], 0, Some(message))
  }

  function PythonParse(read: Result<string, string>, parse: string -> ParseOutcome): ParseResult
  {
    match read
    case Err(e) => PythonFailure(e)
    case Ok(content) =>
      match parse(content)
      case Err(e) => PythonFailure(e)
      case Ok(nodes) => ParseResult(PyFunctions(nodes), Some(PyClasses(nodes)), PyImports(nodes), LineCount(content), None)
  }

  /** The functions, classes and imports of the walked nodes, in walk order; any failure gives the empty record. */
  method ParsePythonFile(read: Result<string, string>, parse: string -> ParseOutcome) returns (r: ParseResult)
    ensures r == PythonParse(read, parse)
  {
    if read.Err? {
      return PythonFailure(read.error);
    }
    var content := read.value;
    var tree := parse(content);
    if tree.Err? {
      return PythonFailure(tree.error);
    }
    var nodes := tree.value;
    var functions: seq<FunctionRecord> := [];
    var classes: seq<ClassRecord> := [];
    var imports: seq<string> := [];
    var i := 0;
    while i < |nodes|
      invariant 0 <= i <= |nodes|
      invariant functions == PyFunctions(nodes[..i])
      invariant classes == PyClasses(nodes[..i])
      invariant imports == PyImports(nodes[..i])
    {
      assert nodes[..i + 1][..i] == nodes[..i];
      var node := nodes[i];
      match node {
        case FunctionDef(name, lineno, args, docstring, _) =>
          functions := functions + [PyFunction(name, lineno, args, docstring.GetOr(""))];
        case ClassDef(name, lineno, docstring) =>
          classes := classes + [ClassRecord(name, lineno, docstring.GetOr(""))];
        case Import(names) =>
          var k := 0;
          ghost var before := imports;
          while k < |names|
            invariant 0 <= k <= |names|
            invariant imports == before + names[..k]
          {
            assert names[..k + 1] == names[..k] + [names[k]];
            imports := imports + [names[k]];
            k := k + 1;
          }
          assert names[..k] == names;
        case ImportFrom(m, _) =>
          if m.Some? && m.value != "" {
            imports := imports + [m.value];
          }
        case Other =>
      }
      i := i + 1;
    }
    assert nodes[..i] == nodes;
    r := ParseResult(functions, Some(classes), imports, LineCount(content), None);
  }

  // ---------------------------------------------------------------------------
  // JavaScript parsing

  /** The non-empty stripped pieces, in order. */
  function NonEmptyStripped(parts: seq<string>): seq<string>
  {
    if |parts| == 0 then []
    else
      var p := Strip(parts[|parts| - 1]);
      NonEmptyStripped(parts[..|parts| - 1]) + (if p != "" then [p] else [])
  }

  /** `[p.strip() for p in text.split(',') if p.strip()]`. */
  function Parameters(text: string): seq<string>
  {
    NonEmptyStripped(Split(text, ','))
  }

  function DeclarationRecords(matches: seq<(string, string)>): seq<FunctionRecord>
  {
    seq(|matches|, i requires 0 <= i < |matches| => JsFunction(matches[i].0, Parameters(matches[i].1), "function"))
  }

  function NamedRecords(names: seq<string>, kind: string): seq<FunctionRecord>
  {
    seq(|names|, i requires 0 <= i < |names| => JsFunction(names[i], [], kind))
  }

  /** All `function` matches, then all arrow matches, then all method matches. */
  function JsFunctions(c: JsCaptures): seq<FunctionRecord>
  {
    DeclarationRecords(c.functionMatches) + NamedRecords(c.arrowMatches, "arrow_function") + NamedRecords(c.methodMatches, "method")
  }

  function JsImportCaptures(c: JsCaptures): seq<string>
  {
    c.fromImports + c.requireImports + c.bareImports
  }

  function JsFailure(message: string): ParseResult
  {
    ParseResult([], None, [], 0, Some(message))
  }

  /**
   * What the JavaScript parser promises: on a read error the empty record; else
   * the function records in pattern order, no `classes`, the import captures
   * without duplicates (in an order `set` leaves unspecified) and the line count.
   */
  predicate JsParsed(r: ParseResult, read: Result<string, string>, scan: string -> JsCaptures)
  {
    match read
    case Err(e) => r == JsFailure(e)
    case Ok(content) =>
      r.functions == JsFunctions(scan(content)) && r.classes == None &&
      NoDup(r.imports) && Elements(r.imports) == Elements(JsImportCaptures(scan(content))) &&
      r.lineCount == LineCount(content) && r.error == None
  }

  method ParseJavaScriptFile(read: Result<string, string>, scan: string -> JsCaptures) returns (r: ParseResult)
    ensures JsParsed(r, read, scan)
  {
    if read.Err? {
      return JsFailure(read.error);
    }
    var content := read.value;
    var c := scan(content);
    var declarations := DeclarationsOf(c.functionMatches);
    var arrows := NamedOf(c.arrowMatches, "arrow_function");
    var methods := NamedOf(c.methodMatches, "method");
    var imports := ConcatAll([c.fromImports, c.requireImports, c.bareImports]);
    FlattenThree(c.fromImports, c.requireImports, c.bareImports);
    DedupElements(imports);
    r := ParseResult(declarations + arrows + methods, None, Dedup(imports), LineCount(content), None);
  }

  /** One record per `function name(params)` match, in match order. */
  method DeclarationsOf(matches: seq<(string, string)>) returns (functions: seq<FunctionRecord>)
    ensures functions == DeclarationRecords(matches)
  {
    functions := [];
    var i := 0;
    while i < |matches|
      invariant 0 <= i <= |matches|
      invariant functions == DeclarationRecords(matches)[..i]
    {
      var record := JsFunction(matches[i].0, Parameters(matches[i].1), "function");
      assert DeclarationRecords(matches)[..i + 1] == DeclarationRecords(matches)[..i] + [record] by {
        TakeSnoc(DeclarationRecords(matches), i);
      }
      functions := functions + [record];
      i := i + 1;
    }
    assert DeclarationRecords(matches)[..i] == DeclarationRecords(matches);
  }

  /** One parameterless record of the given kind per matched name, in match order. */
  method NamedOf(names: seq<string>, kind: string) returns (functions: seq<FunctionRecord>)
    ensures functions == NamedRecords(names, kind)
  {
    functions := [];
    var i := 0;
    while i < |names|
      invariant 0 <= i <= |names|
      invariant functions == NamedRecords(names, kind)[..i]
    {
      assert NamedRecords(names, kind)[..i + 1] == NamedRecords(names, kind)[..i] + [JsFunction(names[i], [], kind)] by {
        TakeSnoc(NamedRecords(names, kind), i);
      }
      functions := functions + [JsFunction(names[i], [], kind)];
      i := i + 1;
    }
    assert NamedRecords(names, kind)[..i] == NamedRecords(names, kind);
  }

  lemma DedupElements(s: seq<string>)
    ensures Elements(Dedup(s)) == Elements(s)
  {
    var d := Dedup(s);
    forall x | x in Elements(s) ensures x in Elements(d) {
      var i :| 0 <= i < |s| && s[i] == x;
      assert s[i] in d;
    }
    forall x | x in Elements(d) ensures x in Elements(s) {
      var i :| 0 <= i < |d| && d[i] == x;
      assert d[i] in s;
    }
  }

  // ---------------------------------------------------------------------------
  // Dispatch

  function Unsupported(fileType: string): ParseResult
  {
    ParseResult([], None, [], 0, Some("Unsupported file type: " + fileType))
  }

  /** Python files to the Python parser, the JavaScript family to the JavaScript parser, anything else an error record. */
  method ParseFile(path: string, read: Result<string, string>, parse: string -> ParseOutcome, scan: string -> JsCaptures)
    returns (r: ParseResult)
    ensures GetFileType(path) == "python" ==> r == PythonParse(read, parse)
    ensures IsJsFamily(GetFileType(path)) ==> JsParsed(r, read, scan)
    ensures GetFileType(path) != "python" && !IsJsFamily(GetFileType(path)) ==> r == Unsupported(GetFileType(path))
  {
    var fileType := GetFileType(path);
    if fileType == "python" {
      r := ParsePythonFile(read, parse);
    } else if fileType == "javascript" || fileType == "react" || fileType == "typescript" {
      r := ParseJavaScriptFile(read, scan);
    } else {
      r := Unsupported(fileType);
    }
  }

  // ---------------------------------------------------------------------------
  // Summary

  function SummaryHeader(path: string): string
  {
    PathName(path) + " (" + GetFileType(path) + ")"
  }

  function Optional(present: bool, clause: string): seq<string>
  {
    if present then [clause] else []
  }

  predicate HasClasses(parsed: ParseResult)
  {
    parsed.classes.Some? && |parsed.classes.value| > 0
  }

  function ClassCount(parsed: ParseResult): nat
  {
    if parsed.classes.Some? then |parsed.classes.value| else 0
  }

  function SummaryParts(path: string, parsed: ParseResult): seq<string>
  {
    [SummaryHeader(path)]
    + Optional(|parsed.functions| > 0, "Contains " + NatToString(|parsed.functions|) + " functions")
    + Optional(HasClasses(parsed), "Contains " + NatToString(ClassCount(parsed)) + " classes")
    + Optional(|parsed.imports| > 0, "Imports " + NatToString(|parsed.imports|) + " modules")
    + Optional(parsed.lineCount > 0, NatToString(parsed.lineCount) + " lines of code")
  }

  function FileSummary(path: string, parsed: ParseResult): string
  {
    Join(SummaryParts(path, parsed), " - ")
  }

  /** `name (type)`, then the functions, classes, imports and lines clauses when non-empty, joined by ` - `. */
  method GetFileSummary(path: string, parsed: ParseResult) returns (summary: string)
    ensures summary == FileSummary(path, parsed)
  {
    var parts := [PathName(path) + " (" + GetFileType(path) + ")"];
    ghost var expected := parts;
    if |parsed.functions| > 0 {
      parts := parts + ["Contains " + NatToString(|parsed.functions|) + " functions"];
    }
    expected := expected + Optional(|parsed.functions| > 0, "Contains " + NatToString(|parsed.functions|) + " functions");
    assert parts == expected;
    if parsed.classes.Some? && |parsed.classes.value| > 0 {
      parts := parts + ["Contains " + NatToString(|parsed.classes.value|) + " classes"];
    }
    expected := expected + Optional(HasClasses(parsed), "Contains " + NatToString(ClassCount(parsed)) + " classes");
    assert parts == expected;
    if |parsed.imports| > 0 {
      parts := parts + ["Imports " + NatToString(|parsed.imports|) + " modules"];
    }
    expected := expected + Optional(|parsed.imports| > 0, "Imports " + NatToString(|parsed.imports|) + " modules");
    assert parts == expected;
    if parsed.lineCount > 0 {
      parts := parts + [NatToString(parsed.lineCount) + " lines of code"];
    }
    expected := expected + Optional(parsed.lineCount > 0, NatToString(parsed.lineCount) + " lines of code");
    assert parts == expected;
    summary := Join(parts, " - ");
  }

  // ---------------------------------------------------------------------------
  // Properties

  /** A path is a code file exactly when its type is known. */
  lemma CodeFileIffKnownType(path: string)
    ensures IsCodeFile(path) <==> GetFileType(path) != "unknown"
  {
    var ext := Lower(PathSuffix(path));
    if ext in SupportedExtensions {
      assert SupportedExtensions[ext] in {"javascript", "react", "typescript", "python"};
    }
  }

  /** Every code file is dispatched to a parser; only the others get the unsupported record. */
  lemma DispatchCoversCodeFiles(path: string)
    ensures IsCodeFile(path) <==> (GetFileType(path) == "python" || IsJsFamily(GetFileType(path)))
  {
    CodeFileIffKnownType(path);
    var ext := Lower(PathSuffix(path));
    if ext in SupportedExtensions {
      assert SupportedExtensions[ext] in {"javascript", "react", "typescript", "python"};
    }
  }

  /** A non-empty suffix is a `.` and at least one more character, taken from the end of the name, with no other `.`. */
  lemma SuffixShape(path: string)
    ensures var sfx := PathSuffix(path);
      sfx != "" ==> |sfx| >= 2 && sfx[0] == '.' && EndsWith(PathName(path), sfx) && '.' !in sfx[1..] && |sfx| < |PathName(path)|
  {
    var name := PathName(path);
    var i := RFind(name, '.');
    if 0 < i < |name| - 1 {
      var sfx := name[i..];
      assert forall j :: 1 <= j < |sfx| ==> sfx[j] == name[i + j];
      assert forall j :: 0 <= j < |sfx| - 1 ==> sfx[1..][j] == sfx[j + 1];
    }
  }

  /** The name of a path one directory deep is the text after its `/`. */
  lemma NameInDirectory(dir: string, name: string)
    requires '/' !in dir && '/' !in name
    ensures PathName(dir + "/" + name) == name
  {
    assert dir + "/" + name == dir + ['/'] + name;
    SplitOnce(dir, '/', name);
  }

  /** `k` is the last position of `c` in `s`. */
  lemma RFindAt(s: string, c: char, k: nat)
    requires k < |s| && s[k] == c
    requires forall j :: k < j < |s| ==> s[j] != c
    ensures RFind(s, c) == k
  {
  }

  /** The suffix of `dir/stem.ext` is `.ext` when `ext` holds no dot, whatever dots `stem` holds. */
  lemma NameSuffix(dir: string, stem: string, ext: string)
    requires '/' !in dir && '/' !in stem && '/' !in ext && '.' !in ext
    requires |stem| > 0 && |ext| > 0
    ensures PathSuffix(dir + "/" + stem + "." + ext) == "." + ext
  {
    var name := stem + "." + ext;
    assert PathName(dir + "/" + stem + "." + ext) == name by {
      assert dir + "/" + stem + "." + ext == dir + "/" + name;
      assert '/' !in name;
      NameInDirectory(dir, name);
    }
    assert RFind(name, '.') == |stem| by {
      forall j | |stem| < j < |name| ensures name[j] != '.' {
        assert name[j] == ext[j - |stem| - 1];
      }
      RFindAt(name, '.', |stem|);
    }
    assert name[|stem|..] == "." + ext;
  }

  /** The suffix is looked up lower-cased. */
  lemma UpperCaseSuffix(dir: string, stem: string)
    requires '/' !in dir && '/' !in stem && |stem| > 0
    ensures GetFileType(dir + "/" + stem + ".JSX") == "react"
  {
    var ext := "JSX";
    NameSuffix(dir, stem, ext);
    assert dir + "/" + stem + "." + ext == dir + "/" + stem + ".JSX";
    var low := Lower("." + ext);
    assert low[0] == '.' && low[1] == 'j' && low[2] == 's' && low[3] == 'x';
    assert low == ".jsx";
  }

  /** A name that only starts with a dot has no suffix. */
  lemma HiddenFileHasNoType(dir: string, ext: string)
    requires '/' !in dir && '/' !in ext && '.' !in ext
    ensures PathSuffix(dir + "/" + "." + ext) == ""
    ensures GetFileType(dir + "/" + "." + ext) == "unknown" && !IsCodeFile(dir + "/" + "." + ext)
  {
    var name := "." + ext;
    assert dir + "/" + "." + ext == dir + "/" + name;
    NameInDirectory(dir, name);
    forall j | 0 < j < |name| ensures name[j] != '.' {
      assert name[j] == ext[j - 1];
    }
    RFindAt(name, '.', 0);
    assert Lower("") == "";
  }

  /** Only the last suffix counts: `stem.inner.py` is a Python file. */
  lemma LastSuffixCounts(dir: string, stem: string, inner: string)
    requires '/' !in dir && '/' !in stem && '/' !in inner && |stem| > 0
    ensures PathSuffix(dir + "/" + stem + "." + inner + ".py") == ".py"
    ensures GetFileType(dir + "/" + stem + "." + inner + ".py") == "python"
  {
    var ext := "py";
    var full := stem + "." + inner;
    assert '/' !in full;
    NameSuffix(dir, full, ext);
    assert dir + "/" + full + "." + ext == dir + "/" + stem + "." + inner + ".py";
    var low := Lower("." + ext);
    assert low[0] == '.' && low[1] == 'p' && low[2] == 'y';
    assert low == ".py";
    assert "." + ext == ".py";
  }

  /** `f` is the record of the `def` node `n`. */
  predicate RecordOfDef(n: Node, f: FunctionRecord)
  {
    n.FunctionDef? && f == PyFunctionOf(n)
  }

  lemma {:induction false} PyFunctionsMember(nodes: seq<Node>, f: FunctionRecord)
    ensures f in PyFunctions(nodes) <==> exists i :: 0 <= i < |nodes| && RecordOfDef(nodes[i], f)
  {
    if |nodes| > 0 {
      var pre := nodes[..|nodes| - 1];
      var n := nodes[|nodes| - 1];
      PyFunctionsMember(pre, f);
      assert PyFunctions(nodes) == PyFunctions(pre) + (if n.FunctionDef? then [PyFunctionOf(n)] else []);
      if f in PyFunctions(pre) {
        var i :| 0 <= i < |pre| && RecordOfDef(pre[i], f);
        assert nodes[i] == pre[i];
      } else if RecordOfDef(n, f) {
        assert nodes[|nodes| - 1] == n;
      }
      if exists i :: 0 <= i < |nodes| && RecordOfDef(nodes[i], f) {
        var i :| 0 <= i < |nodes| && RecordOfDef(nodes[i], f);
        if i < |pre| {
          assert nodes[i] == pre[i];
        }
      }
    }
  }

  /**
   * Each Python function record is a `def` node's name, line, positional
   * parameters in order and docstring, `""` when there is none, and every
   * `def` node yields one.
   */
  lemma PythonFunctionRecords(nodes: seq<Node>)
    ensures forall f :: f in PyFunctions(nodes) <==>
      exists i :: 0 <= i < |nodes| && nodes[i].FunctionDef? &&
        f == PyFunction(nodes[i].name, nodes[i].lineno, nodes[i].args, nodes[i].docstring.GetOr(""))
  {
    forall f {
      PyFunctionsMember(nodes, f);
    }
  }

  /** `from M import …` adds `M` once, whatever its aliases, and nothing when `M` is absent or empty. */
  lemma FromImportOncePerStatement(nodes: seq<Node>, m: Option<string>, names: seq<string>)
    ensures PyImports(nodes + [ImportFrom(m, names)]) ==
      PyImports(nodes) + (if m.Some? && m.value != "" then [m.value] else [])
  {
    assert (nodes + [ImportFrom(m, names)])[..|nodes|] == nodes;
  }

  /** `import a, b` adds every alias, in order. */
  lemma ImportAddsAliases(nodes: seq<Node>, names: seq<string>)
    ensures PyImports(nodes + [Import(names)]) == PyImports(nodes) + names
  {
    assert (nodes + [Import(names)])[..|nodes|] == nodes;
  }

  /** Any failure gives empty lists, a zero line count and the message; success has one more line than newlines. */
  lemma PythonParseOutcome(read: Result<string, string>, parse: string -> ParseOutcome)
    ensures var r := PythonParse(read, parse);
      (r.error.Some? <==> (read.Err? || parse(read.value).Err?)) &&
      (r.error.Some? ==> r.functions == [] && r.classes == Some([]) && r.imports == [] && r.lineCount == 0) &&
      (r.error.None? ==> r.lineCount == multiset(read.value)['\n'] + 1 && r.classes.Some?)
  {
    if read.Ok? {
      SplitLength(read.value, '\n');
    }
  }

  /** JavaScript parse results: records in pattern order, declarations carrying split parameters, the others none. */
  lemma JsFunctionsLayout(c: JsCaptures)
    ensures var fs := JsFunctions(c);
      var a := |c.functionMatches|;
      var b := a + |c.arrowMatches|;
      |fs| == b + |c.methodMatches| &&
      (forall i :: 0 <= i < a ==> fs[i] == JsFunction(c.functionMatches[i].0, Parameters(c.functionMatches[i].1), "function")) &&
      (forall i :: a <= i < b ==> fs[i] == JsFunction(c.arrowMatches[i - a], [], "arrow_function")) &&
      (forall i :: b <= i < |fs| ==> fs[i] == JsFunction(c.methodMatches[i - b], [], "method"))
  {
  }

  /** A parameter as the split keeps it: non-empty, comma-free, with no surrounding whitespace. */
  predicate CleanParameter(p: string)
  {
    p != "" && ',' !in p && !IsSpace(p[0]) && !IsSpace(p[|p| - 1])
  }

  predicate AllClean(ps: seq<string>)
  {
    forall k :: 0 <= k < |ps| ==> CleanParameter(ps[k])
  }

  lemma StripClean(part: string)
    requires ',' !in part && Strip(part) != ""
    ensures CleanParameter(Strip(part))
  {
    StripKeepsAbsent(part, ',');
  }

  lemma AllCleanAppend(qs: seq<string>, tail: seq<string>)
    requires AllClean(qs) && AllClean(tail)
    ensures AllClean(qs + tail)
  {
    forall k | 0 <= k < |qs + tail|
      ensures CleanParameter((qs + tail)[k])
    {
      if k < |qs| {
        assert (qs + tail)[k] == qs[k];
      } else {
        assert (qs + tail)[k] == tail[k - |qs|];
      }
    }
  }

  lemma {:induction false} NonEmptyStrippedShape(parts: seq<string>)
    requires forall k :: 0 <= k < |parts| ==> ',' !in parts[k]
    ensures |NonEmptyStripped(parts)| <= |parts|
    ensures AllClean(NonEmptyStripped(parts))
  {
    if |parts| > 0 {
      var pre := parts[..|parts| - 1];
      var last := parts[|parts| - 1];
      assert forall k :: 0 <= k < |pre| ==> pre[k] == parts[k];
      NonEmptyStrippedShape(pre);
      var p := Strip(last);
      var tail := if p != "" then [p] else [];
      if p != "" {
        StripClean(last);
      }
      assert AllClean(tail);
      AllCleanAppend(NonEmptyStripped(pre), tail);
    }
  }

  /** Parameters are non-empty, comma-free, trimmed, and at most one more than the commas. */
  lemma ParametersShape(text: string)
    ensures var ps := Parameters(text);
      |ps| <= multiset(text)[','] + 1 && AllClean(ps)
  {
    NonEmptyStrippedShape(Split(text, ','));
    SplitLength(text, ',');
  }

  /** The summary starts with `name (type)` and is exactly that when every count is empty. */
  lemma FileSummaryHeaderOnly(path: string, parsed: ParseResult)
    ensures StartsWith(FileSummary(path, parsed), SummaryHeader(path))
    ensures FileSummary(path, parsed) == SummaryHeader(path) <==>
      parsed.functions == [] && !HasClasses(parsed) && parsed.imports == [] && parsed.lineCount == 0
  {
    var parts := SummaryParts(path, parsed);
    JoinStartsWithFirst(parts, " - ");
  }
}
