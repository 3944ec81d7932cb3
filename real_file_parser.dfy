/**
 * The second file parser, backend/app/core/real_file_parser.py: archive entry
 * filtering, the JavaScript function and import extraction over pattern
 * captures, signature extraction by parenthesis depth, Python extraction over
 * walked syntax nodes, and the per-file records of a whole upload.
 */
module RealFileParser {
  import opened Wrappers
  import opened Strings
  import opened Seqs
  import opened Dicts
  import opened PyAst

  // ---------------------------------------------------------------------------
  // Supported files

  const SupportedExtensions: seq<string> := [".js", ".jsx", ".ts", ".tsx", ".py", ".pyx"]

  /** Case-sensitive `endswith` on any supported extension: exactly the names the parser tags as JavaScript or Python. */
  predicate IsSupportedFile(filename: string)
    ensures IsSupportedFile(filename) <==> IsJsFamilyName(filename) || IsPythonName(filename)
  {
    SupportedExtensionsTagged(filename);
    HasSupportedExtension(filename)
  }

  /** `any(filename.endswith(ext) for ext in supported_extensions)`. */
  predicate HasSupportedExtension(filename: string)
  {
    exists i :: 0 <= i < |SupportedExtensions| && EndsWith(filename, SupportedExtensions[i])
  }

  predicate IsJsFamilyName(filename: string)
  {
    EndsWith(filename, ".js") || EndsWith(filename, ".jsx") || EndsWith(filename, ".ts") || EndsWith(filename, ".tsx")
  }

  predicate IsPythonName(filename: string)
  {
    EndsWith(filename, ".py") || EndsWith(filename, ".pyx")
  }

  /** One member of an uploaded archive: its name, whether it is a directory, and its decoded text. */
  datatype ArchiveEntry = ArchiveEntry(filename: string, isDir: bool, content: string)

  /** The name-to-content dict built from the supported regular files; a repeated name keeps its last content. */
  function ExtractedFrom(entries: seq<ArchiveEntry>): Dict<string>
  {
    if |entries| == 0 then []
    else
      var e := entries[|entries| - 1];
      var d := ExtractedFrom(entries[..|entries| - 1]);
      if e.isDir || !IsSupportedFile(e.filename) then d else Put(d, e.filename, e.content)
  }

  // ---------------------------------------------------------------------------
  // Records

  datatype FunctionRecord = FunctionRecord(name: string, signature: string, code: string)

  datatype ParsedFile = ParsedFile(filename: string, fileType: string, functions: seq<FunctionRecord>, imports: seq<string>, content: string)

  /** One pattern match: the captured name and the whole matched text. */
  datatype FunctionMatch = FunctionMatch(name: string, text: string)

  /**
   * The captures of the JavaScript patterns over one content string, each in
   * match order: function declarations, `const` arrow functions, `name: (…) =>`
   * members, `name: function (…)` members, then the `import … from '…'`,
   * `import '…'` and `require('…')` import patterns.
   */
  datatype JsScan = JsScan(
    declarations: seq<FunctionMatch>,
    arrowFunctions: seq<FunctionMatch>,
    methodDefinitions: seq<FunctionMatch>,
    functionExpressions: seq<FunctionMatch>,
    fromImports: seq<string>,
    bareImports: seq<string>,
    requireImports: seq<string>)

  function FunctionPatterns(c: JsScan): seq<seq<FunctionMatch>>
  {
    [c.declarations, c.arrowFunctions, c.methodDefinitions, c.functionExpressions]
  }

  function ImportPatterns(c: JsScan): seq<seq<string>>
  {
    [c.fromImports, c.bareImports, c.requireImports]
  }

  // ---------------------------------------------------------------------------
  // Signatures

  /** Change of parenthesis depth contributed by one character. */
  function ParenStep(ch: char): int
  {
    if ch == '(' then 1 else if ch == ')' then -1 else 0
  }

  /** Net parenthesis depth of a text: opening minus closing parentheses. */
  function Depth(s: string): int
  {
    if |s| == 0 then 0 else Depth(s[..|s| - 1]) + ParenStep(s[|s| - 1])
  }

  /** Scanning from `i` at depth `depth`, the index just past the `)` that brings the depth to 0, if any. */
  function SignatureEnd(code: string, i: nat, depth: int): (e: Option<nat>)
    requires i <= |code|
    ensures e.Some? ==> i < e.value <= |code| && code[e.value - 1] == ')'
    decreases |code| - i
  {
    if i == |code| then None
    else if code[i] == '(' then SignatureEnd(code, i + 1, depth + 1)
    else if code[i] == ')' then (if depth - 1 == 0 then Some(i + 1) else SignatureEnd(code, i + 1, depth - 1))
    else SignatureEnd(code, i + 1, depth)
  }

  /** The signature is a prefix of the code that keeps everything before the first `(`. */
  function Signature(code: string): (r: string)
    ensures r <= code
    ensures IndexOf(code, '(') <= |r|
  {
    var start := IndexOf(code, '(');
    if start == |code| then code
    else
      match SignatureEnd(code, start, 0)
      case Some(e) => code[..e]
      case None => code[..start]
  }

  /** The text up to the parenthesis that closes the first `(`; the whole text without `(`; the text before `(` when it never closes. */
  method ExtractFunctionSignature(code: string) returns (signature: string)
    ensures signature == Signature(code)
  {
    var start := IndexOf(code, '(');
    if start == |code| {
      return code;
    }
    var parenCount := 0;
    var end := start;
    var i := start;
    while i < |code|
      invariant start <= i <= |code|
      invariant end == start
      invariant SignatureEnd(code, start, 0) == SignatureEnd(code, i, parenCount)
    {
      if code[i] == '(' {
        parenCount := parenCount + 1;
      } else if code[i] == ')' {
        parenCount := parenCount - 1;
        if parenCount == 0 {
          end := i + 1;
          break;
        }
      }
      i := i + 1;
    }
    signature := code[..end];
  }

  // ---------------------------------------------------------------------------
  // JavaScript extraction

  function RecordOf(m: FunctionMatch): FunctionRecord
  {
    FunctionRecord(m.name, Signature(m.text), Strip(m.text))
  }

  function Records(ms: seq<FunctionMatch>): seq<FunctionRecord>
  {
    seq(|ms|, i requires 0 <= i < |ms| => RecordOf(ms[i]))
  }

  function JsFunctions(c: JsScan): seq<FunctionRecord>
  {
    Records(Flatten(FunctionPatterns(c)))
  }

  /** One record per match of one pattern, in match order. */
  method RecordsOf(matches: seq<FunctionMatch>) returns (records: seq<FunctionRecord>)
    ensures records == Records(matches)
  {
    records := [];
    var m := 0;
    while m < |matches|
      invariant 0 <= m <= |matches|
      invariant records == Records(matches)[..m]
    {
      var signature := ExtractFunctionSignature(matches[m].text);
      var record := FunctionRecord(matches[m].name, signature, Strip(matches[m].text));
      assert record == RecordOf(matches[m]);
      RecordsTake(matches, m);
      records := records + [record];
      m := m + 1;
    }
    assert Records(matches)[..m] == Records(matches);
  }

  lemma RecordsTake(matches: seq<FunctionMatch>, m: nat)
    requires m < |matches|
    ensures Records(matches)[..m + 1] == Records(matches)[..m] + [RecordOf(matches[m])]
  {
    assert Records(matches)[m] == RecordOf(matches[m]);
  }

  /** One record per match, pattern after pattern: the name, the signature of the match text and the stripped match text. */
  method ExtractJsFunctions(content: string, scan: string -> JsScan) returns (functions: seq<FunctionRecord>)
    ensures functions == JsFunctions(scan(content))
  {
    var patterns := FunctionPatterns(scan(content));
    functions := [];
    var p := 0;
    while p < |patterns|
      invariant 0 <= p <= |patterns|
      invariant functions == Records(Flatten(patterns[..p]))
    {
      var records := RecordsOf(patterns[p]);
      assert patterns[..p + 1] == patterns[..p] + [patterns[p]];
      FlattenAppend(patterns[..p], [patterns[p]]);
      assert Flatten([patterns[p]]) == patterns[p];
      RecordsAppend(Flatten(patterns[..p]), patterns[p]);
      functions := functions + records;
      p := p + 1;
    }
    assert patterns[..p] == patterns;
  }

  function JsImports(c: JsScan): seq<string>
  {
    Flatten(ImportPatterns(c))
  }

  /** Every import capture of the three patterns, in pattern order, duplicates kept. */
  method ExtractJsImports(content: string, scan: string -> JsScan) returns (imports: seq<string>)
    ensures imports == JsImports(scan(content))
  {
    imports := ConcatAll(ImportPatterns(scan(content)));
  }

  // ---------------------------------------------------------------------------
  // Python extraction

  /** `def name(p1, p2)`. */
  function PythonSignature(name: string, args: seq<string>): string
  {
    "def " + name + "(" + Join(args, ", ") + ")"
  }

  function NodeFunctions(n: Node): seq<FunctionRecord>
  {
    if n.FunctionDef? then [FunctionRecord(n.name, PythonSignature(n.name, n.args), Strip(n.source))] else []
  }

  function PyFunctions(nodes: seq<Node>): seq<FunctionRecord>
  {
    if |nodes| == 0 then [] else PyFunctions(nodes[..|nodes| - 1]) + NodeFunctions(nodes[|nodes| - 1])
  }

  /** `M.a` for each alias `a`, with `""` standing for a missing module. */
  function Qualified(m: Option<string>, names: seq<string>): seq<string>
  {
    seq(|names|, i requires 0 <= i < |names| => m.GetOr("") + "." + names[i])
  }

  function NodeImports(n: Node): seq<string>
  {
    match n
    case Import(names) => names
    case ImportFrom(m, names) => Qualified(m, names)
    case _ => []
  }

  function PyImports(nodes: seq<Node>): seq<string>
  {
    if |nodes| == 0 then [] else PyImports(nodes[..|nodes| - 1]) + NodeImports(nodes[|nodes| - 1])
  }

  /** A syntax error yields no functions. */
  function PythonFunctionsOf(content: string, parse: string -> ParseOutcome): seq<FunctionRecord>
  {
    match parse(content)
    case Err(_) => []
    case Ok(nodes) => PyFunctions(nodes)
  }

  /** A syntax error yields no imports. */
  function PythonImportsOf(content: string, parse: string -> ParseOutcome): seq<string>
  {
    match parse(content)
    case Err(_) => []
    case Ok(nodes) => PyImports(nodes)
  }

  method ExtractPythonFunctions(content: string, parse: string -> ParseOutcome) returns (functions: seq<FunctionRecord>)
    ensures functions == PythonFunctionsOf(content, parse)
  {
    var tree := parse(content);
    functions := [];
    if tree.Err? {
      return;
    }
    var nodes := tree.value;
    var i := 0;
    while i < |nodes|
      invariant 0 <= i <= |nodes|
      invariant functions == PyFunctions(nodes[..i])
    {
      assert nodes[..i + 1][..i] == nodes[..i];
      var node := nodes[i];
      if node.FunctionDef? {
        var signature := "def " + node.name + "(" + Join(node.args, ", ") + ")";
        functions := functions + [FunctionRecord(node.name, signature, Strip(node.source))];
      }
      i := i + 1;
    }
    assert nodes[..i] == nodes;
  }

  lemma PyImportsStep(nodes: seq<Node>, i: nat)
    requires i < |nodes|
    ensures PyImports(nodes[..i + 1]) == PyImports(nodes[..i]) + NodeImports(nodes[i])
  {
    assert nodes[..i + 1][..i] == nodes[..i];
  }

  lemma QualifiedStep(m: Option<string>, names: seq<string>, k: nat)
    requires k < |names|
    ensures Qualified(m, names)[..k + 1] == Qualified(m, names)[..k] + [m.GetOr("") + "." + names[k]]
  {
    TakeSnoc(Qualified(m, names), k);
  }

  /** `import a, b`: each alias name, in order. */
  method AppendImportNames(imports: seq<string>, names: seq<string>) returns (r: seq<string>)
    ensures r == imports + names
  {
    r := imports;
    var k := 0;
    TakeAll(names, imports);
    while k < |names|
      invariant 0 <= k <= |names|
      invariant r == imports + names[..k]
    {
      TakeSnoc(names, k);
      r := r + [names[k]];
      k := k + 1;
    }
  }

  /** `from m import a, b`: each alias qualified by the module, or by the empty text for `from . import`. */
  method AppendFromImports(imports: seq<string>, m: Option<string>, names: seq<string>) returns (r: seq<string>)
    ensures r == imports + Qualified(m, names)
  {
    var moduleName := if m.Some? then m.value else "";
    assert moduleName == m.GetOr("");
    r := imports;
    var k := 0;
    TakeAll(Qualified(m, names), imports);
    while k < |names|
      invariant 0 <= k <= |names|
      invariant r == imports + Qualified(m, names)[..k]
    {
      QualifiedStep(m, names, k);
      r := r + [moduleName + "." + names[k]];
      k := k + 1;
    }
  }

  method ExtractPythonImports(content: string, parse: string -> ParseOutcome) returns (imports: seq<string>)
    ensures imports == PythonImportsOf(content, parse)
  {
    var tree := parse(content);
    imports := [];
    if tree.Err? {
      return;
    }
    var nodes := tree.value;
    var i := 0;
    while i < |nodes|
      invariant 0 <= i <= |nodes|
      invariant imports == PyImports(nodes[..i])
    {
      PyImportsStep(nodes, i);
      match nodes[i] {
        case Import(names) =>
          imports := AppendImportNames(imports, names);
        case ImportFrom(m, names) =>
          imports := AppendFromImports(imports, m, names);
        case _ =>
      }
      i := i + 1;
    }
    TakeAll(nodes, []);
  }

  // ---------------------------------------------------------------------------
  // Whole files

  function JsFileOf(filename: string, content: string, scan: string -> JsScan): ParsedFile
  {
    ParsedFile(filename, "javascript", JsFunctions(scan(content)), JsImports(scan(content)), content)
  }

  function PythonFileOf(filename: string, content: string, parse: string -> ParseOutcome): ParsedFile
  {
    ParsedFile(filename, "python", PythonFunctionsOf(content, parse), PythonImportsOf(content, parse), content)
  }

  method ParseJavaScriptFile(filename: string, content: string, scan: string -> JsScan) returns (parsed: ParsedFile)
    ensures parsed == JsFileOf(filename, content, scan)
  {
    var functions := ExtractJsFunctions(content, scan);
    var imports := ExtractJsImports(content, scan);
    parsed := ParsedFile(filename, "javascript", functions, imports, content);
  }

  method ParsePythonFile(filename: string, content: string, parse: string -> ParseOutcome) returns (parsed: ParsedFile)
    ensures parsed == PythonFileOf(filename, content, parse)
  {
    var functions := ExtractPythonFunctions(content, parse);
    var imports := ExtractPythonImports(content, parse);
    parsed := ParsedFile(filename, "python", functions, imports, content);
  }

  /** The record one stored file contributes: a JavaScript-family file first, then a Python file, else nothing. */
  function FileRecords(e: Entry<string>, scan: string -> JsScan, parse: string -> ParseOutcome): seq<ParsedFile>
  {
    if IsJsFamilyName(e.key) then [JsFileOf(e.key, e.value, scan)]
    else if IsPythonName(e.key) then [PythonFileOf(e.key, e.value, parse)]
    else []
  }

  function ParseAll(files: Dict<string>, scan: string -> JsScan, parse: string -> ParseOutcome): seq<ParsedFile>
  {
    if |files| == 0 then []
    else ParseAll(files[..|files| - 1], scan, parse) + FileRecords(files[|files| - 1], scan, parse)
  }

  method ParseAllFiles(files: Dict<string>, scan: string -> JsScan, parse: string -> ParseOutcome) returns (parsedFiles: seq<ParsedFile>)
    ensures parsedFiles == ParseAll(files, scan, parse)
  {
    parsedFiles := [];
    var i := 0;
    while i < |files|
      invariant 0 <= i <= |files|
      invariant parsedFiles == ParseAll(files[..i], scan, parse)
    {
      assert files[..i + 1][..i] == files[..i];
      var filename := files[i].key;
      var content := files[i].value;
      if EndsWith(filename, ".js") || EndsWith(filename, ".jsx") || EndsWith(filename, ".ts") || EndsWith(filename, ".tsx") {
        var parsed := ParseJavaScriptFile(filename, content, scan);
        parsedFiles := parsedFiles + [parsed];
      } else if EndsWith(filename, ".py") || EndsWith(filename, ".pyx") {
        var parsed := ParsePythonFile(filename, content, parse);
        parsedFiles := parsedFiles + [parsed];
      }
      i := i + 1;
    }
    assert files[..i] == files;
  }

  /** The parser object and the files of the last successful extraction. */
  class RealFileParser {
    var extractedFiles: Dict<string>

    constructor ()
      ensures extractedFiles == []
    {
      extractedFiles := [];
    }

    /** An unreadable archive yields the empty dict and keeps the previous files; otherwise the supported regular files are stored. */
    method ExtractZip(archive: Result<seq<ArchiveEntry>, string>) returns (files: Dict<string>)
      modifies this
      ensures archive.Err? ==> files == [] && extractedFiles == old(extractedFiles)
      ensures archive.Ok? ==> files == ExtractedFrom(archive.value) && extractedFiles == files
    {
      if archive.Err? {
        return [];
      }
      var entries := archive.value;
      files := [];
      var i := 0;
      while i < |entries|
        invariant 0 <= i <= |entries|
        invariant files == ExtractedFrom(entries[..i])
      {
        assert entries[..i + 1][..i] == entries[..i];
        var entry := entries[i];
        if !(entry.isDir || !IsSupportedFile(entry.filename)) {
          files := Put(files, entry.filename, entry.content);
        }
        i := i + 1;
      }
      assert entries[..i] == entries;
      extractedFiles := files;
    }
  }

  // ---------------------------------------------------------------------------
  // Properties

  /** A name ends with one of the six extensions exactly when it has a JavaScript-family or a Python ending. */
  lemma SupportedExtensionsTagged(filename: string)
    ensures HasSupportedExtension(filename) <==> IsJsFamilyName(filename) || IsPythonName(filename)
  {
    if HasSupportedExtension(filename) {
      var i :| 0 <= i < |SupportedExtensions| && EndsWith(filename, SupportedExtensions[i]);
      ExtensionTagged(filename, i);
    }
    TaggedExtension(filename);
  }

  lemma ExtensionTagged(filename: string, i: nat)
    requires i < |SupportedExtensions| && EndsWith(filename, SupportedExtensions[i])
    ensures IsJsFamilyName(filename) || IsPythonName(filename)
  {
    if i == 0 { assert SupportedExtensions[0] == ".js"; }
    else if i == 1 { assert SupportedExtensions[1] == ".jsx"; }
    else if i == 2 { assert SupportedExtensions[2] == ".ts"; }
    else if i == 3 { assert SupportedExtensions[3] == ".tsx"; }
    else if i == 4 { assert SupportedExtensions[4] == ".py"; }
    else { assert SupportedExtensions[5] == ".pyx"; }
  }

  lemma TaggedExtension(filename: string)
    ensures IsJsFamilyName(filename) || IsPythonName(filename) ==> HasSupportedExtension(filename)
  {
    assert SupportedExtensions == [".js", ".jsx", ".ts", ".tsx", ".py", ".pyx"];
    EndsWithExtension(filename, 0);
    EndsWithExtension(filename, 1);
    EndsWithExtension(filename, 2);
    EndsWithExtension(filename, 3);
    EndsWithExtension(filename, 4);
    EndsWithExtension(filename, 5);
  }

  lemma EndsWithExtension(filename: string, i: nat)
    requires i < |SupportedExtensions|
    ensures EndsWith(filename, SupportedExtensions[i]) ==> HasSupportedExtension(filename)
  {
  }

  /** The extension test is case-sensitive: an upper-case suffix is not supported. */
  lemma UpperCaseNotSupported(filename: string)
    requires filename == "App.JS"
    ensures !IsSupportedFile(filename)
  {
    forall i | 0 <= i < |SupportedExtensions|
      ensures !EndsWith(filename, SupportedExtensions[i])
    {
      var ext := SupportedExtensions[i];
      if |ext| <= |filename| {
        assert filename[|filename| - |ext|..][|ext| - 1] != ext[|ext| - 1];
      }
    }
  }

  /** Every stored name is a supported file, and the last entry of a name sets its content. */
  lemma {:induction false} ExtractedNamesSupported(entries: seq<ArchiveEntry>)
    ensures forall k :: k in Keys(ExtractedFrom(entries)) ==> IsSupportedFile(k)
  {
    if |entries| > 0 {
      var e := entries[|entries| - 1];
      var d := ExtractedFrom(entries[..|entries| - 1]);
      ExtractedNamesSupported(entries[..|entries| - 1]);
      if !(e.isDir || !IsSupportedFile(e.filename)) {
        KeysPut(d, e.filename, e.content);
      }
    }
  }

  lemma ExtractedLastWins(entries: seq<ArchiveEntry>, e: ArchiveEntry)
    requires !e.isDir && IsSupportedFile(e.filename)
    ensures Lookup(ExtractedFrom(entries + [e]), e.filename) == Some(e.content)
  {
    assert (entries + [e])[..|entries|] == entries;
    LookupPut(ExtractedFrom(entries), e.filename, e.content, e.filename);
  }

  lemma ExtractedSkips(entries: seq<ArchiveEntry>, e: ArchiveEntry)
    requires e.isDir || !IsSupportedFile(e.filename)
    ensures ExtractedFrom(entries + [e]) == ExtractedFrom(entries)
  {
    assert (entries + [e])[..|entries|] == entries;
  }

  lemma {:induction false} DepthAppend(s: string, t: string)
    ensures Depth(s + t) == Depth(s) + Depth(t)
    decreases |t|
  {
    if |t| == 0 {
      assert s + t == s;
    } else {
      var t' := t[..|t| - 1];
      DepthAppend(s, t');
      assert (s + t)[..|s + t| - 1] == s + t';
    }
  }

  /** Extending the scanned window by one character adds that character's step. */
  lemma DepthSnoc(code: string, start: nat, i: nat)
    requires start <= i < |code|
    ensures Depth(code[start..i + 1]) == Depth(code[start..i]) + ParenStep(code[i])
  {
    assert code[start..i + 1][..i - start] == code[start..i];
  }

  /** Every window `code[start..j]` with `start < j <= hi` is at positive depth: the `(` at `start` is still open. */
  ghost predicate OpenThrough(code: string, start: nat, hi: nat)
    requires start <= hi <= |code|
  {
    forall j :: start < j <= hi ==> Depth(code[start..j]) > 0
  }

  lemma OpenExtend(code: string, start: nat, i: nat)
    requires start <= i < |code|
    requires OpenThrough(code, start, i) && Depth(code[start..i + 1]) > 0
    ensures OpenThrough(code, start, i + 1)
  {
  }

  /**
   * Scanning forward while every prefix from `start` stays at positive depth:
   * the end found is where the depth first returns to 0, and no end means the
   * depth never does.
   */
  lemma {:induction false} SignatureEndSpec(code: string, start: nat, i: nat, depth: int)
    requires start < i <= |code|
    requires depth == Depth(code[start..i])
    requires OpenThrough(code, start, i)
    ensures var e := SignatureEnd(code, i, depth);
      (e.Some? ==> Depth(code[start..e.value]) == 0 && OpenThrough(code, start, e.value - 1)) &&
      (e.None? ==> OpenThrough(code, start, |code|))
    decreases |code| - i
  {
    if i < |code| {
      assert depth > 0;
      DepthSnoc(code, start, i);
      var d := depth + ParenStep(code[i]);
      if code[i] == ')' && depth - 1 == 0 {
        assert SignatureEnd(code, i, depth) == Some(i + 1);
      } else {
        assert SignatureEnd(code, i, depth) == SignatureEnd(code, i + 1, d);
        OpenExtend(code, start, i);
        SignatureEndSpec(code, start, i + 1, d);
      }
    }
  }

  lemma SignatureStart(code: string)
    requires '(' in code
    ensures var start := IndexOf(code, '(');
      start < |code| && Depth(code[start..start + 1]) == 1 &&
      SignatureEnd(code, start, 0) == SignatureEnd(code, start + 1, 1)
  {
    var start := IndexOf(code, '(');
    FirstParenFound(code);
    DepthOfOne(code[start..start + 1]);
  }

  lemma FirstParenFound(code: string)
    requires '(' in code
    ensures IndexOf(code, '(') < |code| && code[IndexOf(code, '(')] == '('
  {
    var k :| 0 <= k < |code| && code[k] == '(';
    assert IndexOf(code, '(') <= k;
  }

  lemma DepthOfOne(s: string)
    requires |s| == 1
    ensures Depth(s) == ParenStep(s[0])
  {
    assert s[..0] == [];
  }

  /**
   * With a `(` in the text, the signature runs through the first point `e`
   * where the depth counted from that `(` returns to 0.
   */
  lemma SignatureCloses(code: string, e: nat)
    requires '(' in code
    requires IndexOf(code, '(') < e <= |code|
    requires Depth(code[IndexOf(code, '(')..e]) == 0
    requires OpenThrough(code, IndexOf(code, '('), e - 1)
    ensures Signature(code) == code[..e]
  {
    var start := IndexOf(code, '(');
    SignatureStart(code);
    SignatureEndSpec(code, start, start + 1, 1);
    var found := SignatureEnd(code, start, 0);
    assert found.Some?;
    assert found.value == e;
  }

  /** When the depth counted from the first `(` never returns to 0, the signature is the text before it. */
  lemma SignatureUnclosed(code: string)
    requires '(' in code
    requires OpenThrough(code, IndexOf(code, '('), |code|)
    ensures Signature(code) == code[..IndexOf(code, '(')]
  {
    var start := IndexOf(code, '(');
    SignatureStart(code);
    SignatureEndSpec(code, start, start + 1, 1);
    assert SignatureEnd(code, start, 0).None?;
  }

  /** Without a `(` the signature is the whole text. */
  lemma SignatureWithoutParen(code: string)
    requires '(' !in code
    ensures Signature(code) == code
  {
  }

  /** `f(a)b` stops after the closing parenthesis. */
  lemma SignatureStopsAtClose(code: string)
    requires code == "f(a)b"
    ensures Signature(code) == "f(a)"
  {
    assert code[0] == 'f' && code[1] == '(' && code[2] == 'a' && code[3] == ')';
    assert IndexOf(code, '(') == 1;
    assert SignatureEnd(code, 3, 1) == Some(4);
    assert SignatureEnd(code, 2, 1) == Some(4);
    assert SignatureEnd(code, 1, 0) == Some(4);
    assert code[..4] == "f(a)";
  }

  /** `g((x)` never closes its first parenthesis, so only `g` is kept. */
  lemma SignatureUnbalancedKeepsName(code: string)
    requires code == "g((x)"
    ensures Signature(code) == "g"
  {
    assert code[0] == 'g' && code[1] == '(' && code[2] == '(' && code[3] == 'x' && code[4] == ')';
    assert IndexOf(code, '(') == 1;
    assert SignatureEnd(code, 5, 1) == None;
    assert SignatureEnd(code, 4, 2) == None;
    assert SignatureEnd(code, 3, 2) == None;
    assert SignatureEnd(code, 2, 1) == None;
    assert SignatureEnd(code, 1, 0) == None;
    assert code[..1] == "g";
  }

  lemma RecordsAppend(a: seq<FunctionMatch>, b: seq<FunctionMatch>)
    ensures Records(a + b) == Records(a) + Records(b)
  {
    var l := Records(a + b);
    var r := Records(a) + Records(b);
    assert |l| == |r|;
    forall k | 0 <= k < |l|
      ensures l[k] == r[k]
    {
      if k < |a| {
        assert (a + b)[k] == a[k];
      } else {
        assert (a + b)[k] == b[k - |a|];
      }
    }
  }

  /** The records come pattern by pattern, and each signature is a prefix of its match text. */
  lemma JsFunctionsOrder(c: JsScan)
    ensures JsFunctions(c) == Records(c.declarations) + Records(c.arrowFunctions) + Records(c.methodDefinitions) + Records(c.functionExpressions)
    ensures forall r :: r in JsFunctions(c) ==> exists m :: m in Flatten(FunctionPatterns(c)) && r.name == m.name && r.signature <= m.text && r.code == Strip(m.text)
  {
    var ps := FunctionPatterns(c);
    var all := Flatten(ps);
    assert all == c.declarations + c.arrowFunctions + c.methodDefinitions + c.functionExpressions by {
      FlattenAppend(ps[..3], [c.functionExpressions]);
      assert ps == ps[..3] + [c.functionExpressions];
      assert ps[..3] == [c.declarations, c.arrowFunctions, c.methodDefinitions];
      FlattenThree(c.declarations, c.arrowFunctions, c.methodDefinitions);
      assert Flatten([c.functionExpressions]) == c.functionExpressions;
    }
    RecordsAppend(c.declarations + c.arrowFunctions + c.methodDefinitions, c.functionExpressions);
    RecordsAppend(c.declarations + c.arrowFunctions, c.methodDefinitions);
    RecordsAppend(c.declarations, c.arrowFunctions);
    RecordsFromMatches(all);
  }

  /** Every record is built from one of the matches: its name, a prefix of its text as signature, and its stripped text. */
  lemma RecordsFromMatches(ms: seq<FunctionMatch>)
    ensures forall r :: r in Records(ms) ==> exists m :: m in ms && r.name == m.name && r.signature <= m.text && r.code == Strip(m.text)
  {
    forall r | r in Records(ms)
      ensures exists m :: m in ms && r.name == m.name && r.signature <= m.text && r.code == Strip(m.text)
    {
      var i :| 0 <= i < |ms| && Records(ms)[i] == r;
      assert ms[i] in ms;
    }
  }

  /** The imports are the three pattern captures concatenated, in pattern order, duplicates kept. */
  lemma JsImportsKeepDuplicates(c: JsScan)
    ensures JsImports(c) == c.fromImports + c.bareImports + c.requireImports
    ensures |JsImports(c)| == |c.fromImports| + |c.bareImports| + |c.requireImports|
  {
    FlattenThree(c.fromImports, c.bareImports, c.requireImports);
  }

  /** `from M import a, b` yields `M.a` then `M.b`; a missing module gives `.a`, `.b`. */
  lemma FromImportQualifies(nodes: seq<Node>, m: Option<string>, a: string, b: string)
    ensures PyImports(nodes + [ImportFrom(m, [a, b])]) == PyImports(nodes) + [m.GetOr("") + "." + a, m.GetOr("") + "." + b]
    ensures m.None? ==> PyImports(nodes + [ImportFrom(m, [a, b])]) == PyImports(nodes) + ["." + a, "." + b]
  {
    assert (nodes + [ImportFrom(m, [a, b])])[..|nodes|] == nodes;
    if m.None? {
      assert m.GetOr("") == "";
      assert "" + "." + a == "." + a && "" + "." + b == "." + b;
    }
  }

  /** Each alias of `from M import …` is qualified by the module, one import per alias. */
  lemma FromImportOnePerAlias(nodes: seq<Node>, m: Option<string>, names: seq<string>)
    ensures var r := PyImports(nodes + [ImportFrom(m, names)]);
      |r| == |PyImports(nodes)| + |names| &&
      forall i :: 0 <= i < |names| ==> r[|PyImports(nodes)| + i] == m.GetOr("") + "." + names[i]
  {
    assert (nodes + [ImportFrom(m, names)])[..|nodes|] == nodes;
  }

  /** A two-parameter function's signature is `def name(p1, p2)`. */
  lemma PythonSignatureShape(name: string, p1: string, p2: string)
    ensures PythonSignature(name, [p1, p2]) == "def " + name + "(" + p1 + ", " + p2 + ")"
  {
    JoinCons(p1, [p2], ", ");
  }

  /** A syntax error yields neither functions nor imports. */
  lemma SyntaxErrorYieldsNothing(content: string, parse: string -> ParseOutcome)
    requires parse(content).Err?
    ensures PythonFunctionsOf(content, parse) == [] && PythonImportsOf(content, parse) == []
  {
  }

  lemma ParseAllSnoc(files: Dict<string>, e: Entry<string>, scan: string -> JsScan, parse: string -> ParseOutcome)
    ensures ParseAll(files + [e], scan, parse) == ParseAll(files, scan, parse) + FileRecords(e, scan, parse)
  {
    assert (files + [e])[..|files|] == files;
  }

  /** Parsing is file by file: the records of a concatenation are the records of each part, in order. */
  lemma {:induction false} ParseAllAppend(a: Dict<string>, b: Dict<string>, scan: string -> JsScan, parse: string -> ParseOutcome)
    ensures ParseAll(a + b, scan, parse) == ParseAll(a, scan, parse) + ParseAll(b, scan, parse)
    decreases |b|
  {
    if |b| == 0 {
      AppendEmpty(a, b);
    } else {
      var b' := b[..|b| - 1];
      var r := FileRecords(b[|b| - 1], scan, parse);
      AppendLast(a, b);
      assert ParseAll(a + b, scan, parse) == ParseAll(a + b', scan, parse) + r;
      ParseAllAppend(a, b', scan, parse);
      AppendAssoc(ParseAll(a, scan, parse), ParseAll(b', scan, parse), r);
    }
  }

  /** A parsed record made from a stored file: same name, unchanged content, tagged by its extension. */
  predicate TaggedFrom(p: ParsedFile, e: Entry<string>)
  {
    p.filename == e.key && p.content == e.value && IsSupportedFile(p.filename) &&
    (p.fileType == "javascript" <==> IsJsFamilyName(p.filename)) &&
    (p.fileType == "python" <==> !IsJsFamilyName(p.filename))
  }

  predicate FromStoredFile(p: ParsedFile, files: Dict<string>)
  {
    exists j :: 0 <= j < |files| && TaggedFrom(p, files[j])
  }

  /**
   * Each parsed record comes from one stored file, in input order: same name
   * and unchanged content, tagged by its extension; unsupported names are dropped.
   */
  lemma {:induction false} ParseAllFaithful(files: Dict<string>, scan: string -> JsScan, parse: string -> ParseOutcome)
    ensures var ps := ParseAll(files, scan, parse);
      |ps| <= |files| &&
      forall p :: p in ps ==> FromStoredFile(p, files)
  {
    if |files| > 0 {
      var pre := files[..|files| - 1];
      var e := files[|files| - 1];
      ParseAllFaithful(pre, scan, parse);
      forall p | p in ParseAll(files, scan, parse)
        ensures FromStoredFile(p, files)
      {
        if p in ParseAll(pre, scan, parse) {
          var j :| 0 <= j < |pre| && TaggedFrom(p, pre[j]);
          assert files[j] == pre[j];
        } else {
          assert p in FileRecords(e, scan, parse);
          assert TaggedFrom(p, files[|files| - 1]);
        }
      }
    }
  }

  /** A supported file always yields exactly one record. */
  lemma SupportedFileKept(files: Dict<string>, e: Entry<string>, scan: string -> JsScan, parse: string -> ParseOutcome)
    requires IsSupportedFile(e.key)
    ensures |ParseAll(files + [e], scan, parse)| == |ParseAll(files, scan, parse)| + 1
    ensures ParseAll(files + [e], scan, parse)[|ParseAll(files, scan, parse)|].content == e.value
  {
    assert (files + [e])[..|files|] == files;
  }
}
