/**
 * The internal documentation agent, backend/app/agents/internal_doc_agent.py:
 * file types by extension, return-type inference from function names, the
 * cross-reference map, and the structure of a file analysis. The generated
 * documentation texts are inputs (the language model behind them is not
 * modelled); the analysis passes them through `strip()`.
 */
module InternalDoc {
  import opened Wrappers
  import opened Strings
  import opened Seqs
  import opened Dicts

  /** `.py` is Python, `.js`/`.jsx` JavaScript, `.ts`/`.tsx` TypeScript, checked in that order. */
  function GetFileType(filename: string): (r: string)
    ensures r in {"python", "javascript", "typescript", "unknown"}
    ensures r == "python" <==> EndsWith(filename, ".py")
  {
    if EndsWith(filename, ".py") then "python"
    else if EndsWith(filename, ".js") || EndsWith(filename, ".jsx") then "javascript"
    else if EndsWith(filename, ".ts") || EndsWith(filename, ".tsx") then "typescript"
    else "unknown"
  }

  /** The error raised on the JavaScript branch, which calls a method Python strings do not have. */
  const StartsWithError: string := "'str' object has no attribute 'startsWith'"

  /**
   * For Python, `bool` for `is_…` and `has_…` names and `Any` otherwise, on the
   * lower-cased name; any other file type raises an attribute error.
   */
  function InferReturnType(name: string, fileType: string): (r: Result<string, string>)
    ensures r.Ok? <==> fileType == "python"
    ensures r.Ok? ==> r.value == "bool" || r.value == "Any"
  {
    var n := Lower(name);
    if fileType == "python" then
      if StartsWith(n, "get_") then Ok("Any")
      else if StartsWith(n, "is_") then Ok("bool")
      else if StartsWith(n, "has_") then Ok("bool")
      else Ok("Any")
    else Err(StartsWithError)
  }

  // ---------------------------------------------------------------------------
  // File analysis

  /** A parsed function as the analysis reads it; `parameters` and `line_number` may be absent. */
  datatype ParsedFunction = ParsedFunction(name: string, parameters: Option<seq<string>>, lineNumber: Option<int>)

  /** A parsed file as the analysis reads it; `functions` and `line_count` may be absent. */
  datatype ParsedData = ParsedData(functions: Option<seq<ParsedFunction>>, lineCount: Option<int>)

  datatype DocumentedFunction = DocumentedFunction(name: string, doc: string, parameters: seq<string>, returnType: string, lineNumber: Option<int>)

  datatype FileAnalysis = FileAnalysis(filename: string, summary: string, functions: seq<DocumentedFunction>, fileType: string, lineCount: int)

  /** The documentation text generated for one function in a file of the given type. */
  type Documenter = (ParsedFunction, string) -> string

  function FunctionsOf(parsed: ParsedData): seq<ParsedFunction>
  {
    parsed.functions.GetOr([])
  }

  /** The documented functions, or the first return-type error. */
  function DocumentFunctions(fs: seq<ParsedFunction>, fileType: string, document: Documenter): Result<seq<DocumentedFunction>, string>
  {
    if |fs| == 0 then Ok([])
    else
      match DocumentFunctions(fs[..|fs| - 1], fileType, document)
      case Err(e) => Err(e)
      case Ok(done) =>
        var f := fs[|fs| - 1];
        match InferReturnType(f.name, fileType)
        case Err(e) => Err(e)
        case Ok(returnType) => Ok(done + [DocumentedFunction(f.name, Strip(document(f, fileType)), f.parameters.GetOr([]), returnType, f.lineNumber)])
  }

  function AnalyzedFile(filePath: string, parsed: ParsedData, summaryText: string, document: Documenter): Result<FileAnalysis, string>
  {
    var filename := After(filePath, '/');
    var fileType := GetFileType(filename);
    match DocumentFunctions(FunctionsOf(parsed), fileType, document)
    case Err(e) => Err(e)
    case Ok(functions) => Ok(FileAnalysis(filename, Strip(summaryText), functions, fileType, parsed.lineCount.GetOr(0)))
  }

  /**
   * The last path segment, its type, the stripped summary, and one documented
   * record per parsed function in order, or the error the return-type
   * inference raises.
   */
  method AnalyzeFile(filePath: string, parsed: ParsedData, summaryText: string, document: Documenter)
    returns (analysis: Result<FileAnalysis, string>)
    ensures analysis == AnalyzedFile(filePath, parsed, summaryText, document)
  {
    var filename := Last(Split(filePath, '/'));
    var fileType := GetFileType(filename);
    var fileSummary := Strip(summaryText);
    var fs := FunctionsOf(parsed);
    var functions: seq<DocumentedFunction> := [];
    var i := 0;
    while i < |fs|
      invariant 0 <= i <= |fs|
      invariant DocumentFunctions(fs[..i], fileType, document) == Ok(functions)
    {
      var f := fs[i];
      DocumentStep(fs, i, fileType, document);
      var funcDoc := Strip(document(f, fileType));
      var returnType := InferReturnType(f.name, fileType);
      if returnType.Err? {
        DocumentFunctionsErrorSticks(fs, i + 1, fileType, document);
        assert fs[..|fs|] == fs;
        return Err(returnType.error);
      }
      functions := functions + [DocumentedFunction(f.name, funcDoc, f.parameters.GetOr([]), returnType.value, f.lineNumber)];
      i := i + 1;
    }
    assert fs[..i] == fs;
    analysis := Ok(FileAnalysis(filename, fileSummary, functions, fileType, parsed.lineCount.GetOr(0)));
  }

  lemma DocumentStep(fs: seq<ParsedFunction>, i: nat, fileType: string, document: Documenter)
    requires i < |fs| && DocumentFunctions(fs[..i], fileType, document).Ok?
    ensures var done := DocumentFunctions(fs[..i], fileType, document).value;
      var f := fs[i];
      DocumentFunctions(fs[..i + 1], fileType, document) ==
        match InferReturnType(f.name, fileType)
        case Err(e) => Err(e)
        case Ok(t) => Ok(done + [DocumentedFunction(f.name, Strip(document(f, fileType)), f.parameters.GetOr([]), t, f.lineNumber)])
  {
    assert fs[..i + 1][..i] == fs[..i];
  }

  /** Once a prefix fails, every longer prefix fails with the same error. */
  lemma {:induction false} DocumentFunctionsErrorSticks(fs: seq<ParsedFunction>, n: nat, fileType: string, document: Documenter)
    requires n <= |fs| && DocumentFunctions(fs[..n], fileType, document).Err?
    ensures DocumentFunctions(fs, fileType, document) == DocumentFunctions(fs[..n], fileType, document)
    decreases |fs| - n
  {
    if n < |fs| {
      assert fs[..n + 1][..n] == fs[..n];
      DocumentFunctionsErrorSticks(fs, n + 1, fileType, document);
    } else {
      assert fs[..n] == fs;
    }
  }

  // ---------------------------------------------------------------------------
  // Cross references

  /** A file as the cross-reference pass reads it: its name and the names of its functions. */
  datatype FileFunctions = FileFunctions(filename: string, functionNames: seq<string>)

  datatype CrossReference = CrossReference(functionName: string, usedIn: seq<string>)

  /** The `(function name, filename)` pairs of one file, in order. */
  function FileEvents(f: FileFunctions): seq<(string, string)>
  {
    seq(|f.functionNames|, j requires 0 <= j < |f.functionNames| => (f.functionNames[j], f.filename))
  }

  function Events(files: seq<FileFunctions>): seq<(string, string)>
  {
    if |files| == 0 then [] else Events(files[..|files| - 1]) + FileEvents(files[|files| - 1])
  }

  /** Function name to the files that define it, one filename per definition. */
  function FunctionMap(files: seq<FileFunctions>): Dict<seq<string>>
  {
    Group(Events(files))
  }

  function CrossRefs(d: Dict<seq<string>>): seq<CrossReference>
  {
    if |d| == 0 then []
    else
      var e := d[|d| - 1];
      CrossRefs(d[..|d| - 1]) + (if |e.value| > 1 then [CrossReference(e.key, e.value)] else [])
  }

  lemma EventsStep(files: seq<FileFunctions>, i: nat)
    requires i < |files|
    ensures Events(files[..i + 1]) == Events(files[..i]) + FileEvents(files[i])
  {
    TakeSnoc(files, i);
  }

  /** Records each function of `f` under its name, after the events already grouped in `functionMap`. */
  method AddFileFunctions(functionMap: Dict<seq<string>>, ghost before: seq<(string, string)>, f: FileFunctions)
    returns (r: Dict<seq<string>>)
    requires functionMap == Group(before)
    ensures r == Group(before + FileEvents(f))
  {
    r := functionMap;
    var evs := FileEvents(f);
    assert before + evs[..0] == before;
    var j := 0;
    while j < |f.functionNames|
      invariant 0 <= j <= |f.functionNames|
      invariant r == Group(before + evs[..j])
    {
      GroupStep(before, evs, j);
      r := Append(r, f.functionNames[j], f.filename);
      j := j + 1;
    }
    assert evs[..j] == evs;
  }

  method BuildFunctionMap(files: seq<FileFunctions>) returns (functionMap: Dict<seq<string>>)
    ensures functionMap == FunctionMap(files)
  {
    functionMap := [];
    var i := 0;
    while i < |files|
      invariant 0 <= i <= |files|
      invariant functionMap == Group(Events(files[..i]))
    {
      EventsStep(files, i);
      functionMap := AddFileFunctions(functionMap, Events(files[..i]), files[i]);
      i := i + 1;
    }
    assert files[..i] == files;
  }

  /** The functions with more than one definition, in order of first definition, with their files. */
  method FindCrossReferences(files: seq<FileFunctions>) returns (crossRefs: seq<CrossReference>)
    ensures crossRefs == CrossRefs(FunctionMap(files))
  {
    var functionMap := BuildFunctionMap(files);
    crossRefs := [];
    var i := 0;
    while i < |functionMap|
      invariant 0 <= i <= |functionMap|
      invariant crossRefs == CrossRefs(functionMap[..i])
    {
      assert functionMap[..i + 1][..i] == functionMap[..i];
      if |functionMap[i].value| > 1 {
        crossRefs := crossRefs + [CrossReference(functionMap[i].key, functionMap[i].value)];
      }
      i := i + 1;
    }
    assert functionMap[..i] == functionMap;
  }

  // ---------------------------------------------------------------------------
  // Properties

  /** `.jsx` is JavaScript here, not a type of its own. */
  lemma JsxIsJavaScript(stem: string)
    ensures GetFileType(stem + ".jsx") == "javascript"
  {
    var f := stem + ".jsx";
    assert f[|f| - 1] == 'x';
    NotEndsWithAt(f, ".py", 0);
    EndsWithAppend(stem, ".jsx", ".jsx");
  }

  /** `.tsx` is TypeScript. */
  lemma TsxIsTypeScript(stem: string)
    ensures GetFileType(stem + ".tsx") == "typescript"
  {
    var f := stem + ".tsx";
    assert f[|f| - 1] == 'x' && f[|f| - 3] == 't';
    NotEndsWithAt(f, ".py", 0);
    NotEndsWithAt(f, ".js", 0);
    NotEndsWithAt(f, ".jsx", 2);
    EndsWithAppend(stem, ".tsx", ".tsx");
  }

  /** `.pyx` is not Python here: it has no type. */
  lemma PyxIsUnknown(stem: string)
    ensures GetFileType(stem + ".pyx") == "unknown"
  {
    var f := stem + ".pyx";
    assert f[|f| - 1] == 'x' && f[|f| - 2] == 'y';
    NotEndsWithAt(f, ".py", 0);
    NotEndsWithAt(f, ".js", 0);
    NotEndsWithAt(f, ".jsx", 1);
    NotEndsWithAt(f, ".ts", 0);
    NotEndsWithAt(f, ".tsx", 1);
  }

  /** For Python the type is `bool` exactly for `is_` and `has_` names, ignoring case, and `Any` otherwise. */
  lemma PythonReturnType(name: string)
    ensures InferReturnType(name, "python").Ok?
    ensures InferReturnType(name, "python") == Ok("bool") <==> StartsWith(Lower(name), "is_") || StartsWith(Lower(name), "has_")
    ensures InferReturnType(name, "python") == Ok("bool") || InferReturnType(name, "python") == Ok("Any")
  {
    var n := Lower(name);
    if StartsWith(n, "get_") {
      assert n[0] == 'g';
      assert !StartsWith(n, "is_") && !StartsWith(n, "has_");
    }
  }

  /** Every other file type raises. */
  lemma OtherReturnTypeRaises(name: string, fileType: string)
    requires fileType != "python"
    ensures InferReturnType(name, fileType) == Err(StartsWithError)
  {
  }

  /** Documenting fails exactly when the file is not Python and has a function to document. */
  lemma {:induction false} DocumentFunctionsFails(fs: seq<ParsedFunction>, fileType: string, document: Documenter)
    ensures DocumentFunctions(fs, fileType, document).Err? <==> fileType != "python" && |fs| > 0
  {
    if |fs| > 0 {
      var pre := fs[..|fs| - 1];
      DocumentFunctionsFails(pre, fileType, document);
      var f := fs[|fs| - 1];
      if fileType == "python" {
        PythonReturnType(f.name);
      } else {
        OtherReturnTypeRaises(f.name, fileType);
      }
    }
  }

  /** A successful run on a non-empty list extends the successful run on all but its last function. */
  lemma DocumentLast(fs: seq<ParsedFunction>, fileType: string, document: Documenter)
    requires |fs| > 0 && DocumentFunctions(fs, fileType, document).Ok?
    ensures var pre := DocumentFunctions(fs[..|fs| - 1], fileType, document);
      var out := DocumentFunctions(fs, fileType, document).value;
      var f := fs[|fs| - 1];
      pre.Ok? && |out| == |pre.value| + 1 && out[..|pre.value|] == pre.value &&
      out[|pre.value|].name == f.name && out[|pre.value|].parameters == f.parameters.GetOr([]) &&
      out[|pre.value|].lineNumber == f.lineNumber
  {
  }

  /** A successful run documents every function once, in order, keeping its name, parameters and line. */
  lemma {:induction false} DocumentFunctionsKeeps(fs: seq<ParsedFunction>, fileType: string, document: Documenter)
    ensures DocumentFunctions(fs, fileType, document).Ok? ==>
      var out := DocumentFunctions(fs, fileType, document).value;
      |out| == |fs| && forall i :: 0 <= i < |fs| ==>
        out[i].name == fs[i].name && out[i].parameters == fs[i].parameters.GetOr([]) && out[i].lineNumber == fs[i].lineNumber
  {
    if |fs| > 0 && DocumentFunctions(fs, fileType, document).Ok? {
      var pre := fs[..|fs| - 1];
      DocumentLast(fs, fileType, document);
      DocumentFunctionsKeeps(pre, fileType, document);
      var out := DocumentFunctions(fs, fileType, document).value;
      var outPre := DocumentFunctions(pre, fileType, document).value;
      forall i | 0 <= i < |fs|
        ensures out[i].name == fs[i].name && out[i].parameters == fs[i].parameters.GetOr([]) && out[i].lineNumber == fs[i].lineNumber
      {
        if i < |pre| {
          assert out[i] == out[..|outPre|][i] == outPre[i];
          assert pre[i] == fs[i];
        } else {
          assert i == |outPre| && fs[i] == fs[|fs| - 1];
        }
      }
    }
  }

  /**
   * A file analysis fails exactly for a non-Python file with functions; when it
   * succeeds it names the last path segment, keeps the stripped summary and the
   * line count (0 when absent), and keeps the functions' number, names, order,
   * parameters and line numbers.
   */
  lemma AnalyzedFileSpec(filePath: string, parsed: ParsedData, summaryText: string, document: Documenter)
    ensures var r := AnalyzedFile(filePath, parsed, summaryText, document);
      var filename := After(filePath, '/');
      var fs := FunctionsOf(parsed);
      (r.Err? <==> GetFileType(filename) != "python" && |fs| > 0) &&
      (r.Ok? ==> (r.value.filename == filename && '/' !in r.value.filename && r.value.fileType == GetFileType(filename) &&
                  r.value.summary == Strip(summaryText) && r.value.lineCount == parsed.lineCount.GetOr(0) &&
                  |r.value.functions| == |fs| &&
                  forall i :: 0 <= i < |fs| ==>
                    r.value.functions[i].name == fs[i].name && r.value.functions[i].parameters == fs[i].parameters.GetOr([]) &&
                    r.value.functions[i].lineNumber == fs[i].lineNumber))
  {
    DocumentFunctionsFails(FunctionsOf(parsed), GetFileType(After(filePath, '/')), document);
    DocumentFunctionsKeeps(FunctionsOf(parsed), GetFileType(After(filePath, '/')), document);
  }

  lemma {:induction false} CrossRefsMember(d: Dict<seq<string>>, r: CrossReference)
    ensures r in CrossRefs(d) <==> exists i :: 0 <= i < |d| && |d[i].value| > 1 && r == CrossReference(d[i].key, d[i].value)
  {
    if |d| > 0 {
      var p := d[..|d| - 1];
      CrossRefsMember(p, r);
      if exists i :: 0 <= i < |p| && |p[i].value| > 1 && r == CrossReference(p[i].key, p[i].value) {
        var i :| 0 <= i < |p| && |p[i].value| > 1 && r == CrossReference(p[i].key, p[i].value);
        assert d[i] == p[i];
      }
      if exists i :: 0 <= i < |d| && |d[i].value| > 1 && r == CrossReference(d[i].key, d[i].value) {
        var i :| 0 <= i < |d| && |d[i].value| > 1 && r == CrossReference(d[i].key, d[i].value);
        if i < |p| {
          assert d[i] == p[i];
        }
      }
    }
  }

  lemma {:induction false} EventsOf(files: seq<FileFunctions>, name: string, filename: string)
    ensures (name, filename) in Events(files) <==> exists i :: 0 <= i < |files| && files[i].filename == filename && name in files[i].functionNames
  {
    if |files| > 0 {
      var pre := files[..|files| - 1];
      var f := files[|files| - 1];
      EventsOf(pre, name, filename);
      assert Events(files) == Events(pre) + FileEvents(f);
      if (name, filename) in FileEvents(f) {
        var j :| 0 <= j < |FileEvents(f)| && FileEvents(f)[j] == (name, filename);
        assert f.functionNames[j] == name;
      }
      if f.filename == filename && name in f.functionNames {
        var j :| 0 <= j < |f.functionNames| && f.functionNames[j] == name;
        assert FileEvents(f)[j] == (name, filename);
      }
      if exists i :: 0 <= i < |pre| && pre[i].filename == filename && name in pre[i].functionNames {
        var i :| 0 <= i < |pre| && pre[i].filename == filename && name in pre[i].functionNames;
        assert files[i] == pre[i];
      }
      if exists i :: 0 <= i < |files| && files[i].filename == filename && name in files[i].functionNames {
        var i :| 0 <= i < |files| && files[i].filename == filename && name in files[i].functionNames;
        if i < |pre| {
          assert files[i] == pre[i];
        }
      }
    }
  }

  /**
   * A name is reported exactly when it has more than one definition, even when
   * all of them are in one file, and with the defining files in definition order.
   */
  lemma CrossReferenceIff(files: seq<FileFunctions>, name: string, usedIn: seq<string>)
    ensures CrossReference(name, usedIn) in CrossRefs(FunctionMap(files)) <==>
      |ValuesFor(Events(files), name)| > 1 && usedIn == ValuesFor(Events(files), name)
  {
    var evs := Events(files);
    KeysGroup(evs);
    ListOfGroup(evs, name);
    CrossRefsListed(Group(evs), name, usedIn);
  }

  /** Over any dict with distinct keys: a key is reported with its list exactly when that list has more than one entry. */
  lemma CrossRefsListed(d: Dict<seq<string>>, name: string, usedIn: seq<string>)
    requires NoDup(Keys(d))
    ensures CrossReference(name, usedIn) in CrossRefs(d) <==> |ListOf(d, name)| > 1 && usedIn == ListOf(d, name)
  {
    CrossRefsMember(d, CrossReference(name, usedIn));
    if |ListOf(d, name)| > 1 && usedIn == ListOf(d, name) {
      ReportedWhenRepeated(d, name);
    }
    if CrossReference(name, usedIn) in CrossRefs(d) {
      ReportedOnlyAsListed(d, name, usedIn);
    }
  }

  lemma ReportedWhenRepeated(d: Dict<seq<string>>, name: string)
    requires NoDup(Keys(d)) && |ListOf(d, name)| > 1
    ensures exists i :: 0 <= i < |d| && |d[i].value| > 1 && CrossReference(name, ListOf(d, name)) == CrossReference(d[i].key, d[i].value)
  {
    assert name in Keys(d);
    var i :| 0 <= i < |d| && Keys(d)[i] == name;
    LookupAt(d, i);
  }

  lemma ReportedOnlyAsListed(d: Dict<seq<string>>, name: string, usedIn: seq<string>)
    requires NoDup(Keys(d))
    requires exists i :: 0 <= i < |d| && |d[i].value| > 1 && CrossReference(name, usedIn) == CrossReference(d[i].key, d[i].value)
    ensures |ListOf(d, name)| > 1 && usedIn == ListOf(d, name)
  {
    var i :| 0 <= i < |d| && |d[i].value| > 1 && CrossReference(name, usedIn) == CrossReference(d[i].key, d[i].value);
    LookupAt(d, i);
  }

  /** Every listed file defines the function. */
  lemma {:induction false} ValuesForDefine(files: seq<FileFunctions>, name: string, filename: string)
    requires filename in ValuesFor(Events(files), name)
    ensures exists i :: 0 <= i < |files| && files[i].filename == filename && name in files[i].functionNames
  {
    ValuesForEvent(Events(files), name, filename);
    EventsOf(files, name, filename);
  }

  lemma {:induction false} ValuesForEvent(evs: seq<(string, string)>, k: string, v: string)
    requires v in ValuesFor(evs, k)
    ensures (k, v) in evs
  {
    var p := evs[..|evs| - 1];
    var e := evs[|evs| - 1];
    if v in ValuesFor(p, k) {
      ValuesForEvent(p, k, v);
      assert (k, v) in p;
      var j :| 0 <= j < |p| && p[j] == (k, v);
      assert evs[j] == (k, v);
    } else {
      assert e == (k, v);
      assert evs[|evs| - 1] == (k, v);
    }
  }

  /** A function defined twice in one file is reported, with that file listed twice. */
  lemma RepeatInOneFileIsReported(f: string, name: string)
    ensures CrossReference(name, [f, f]) in CrossRefs(FunctionMap([FileFunctions(f, [name, name])]))
  {
    var files := [FileFunctions(f, [name, name])];
    assert files[..0] == [];
    assert Events(files) == [(name, f), (name, f)];
    var evs := Events(files);
    assert evs[..1][..0] == [];
    assert ValuesFor(evs[..1], name) == [f];
    assert ValuesFor(evs, name) == [f, f];
    CrossReferenceIff(files, name, [f, f]);
  }
}
