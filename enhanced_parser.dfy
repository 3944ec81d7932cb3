/**
 * The regex-based parser of the enhanced server (`EnhancedFileParser`): function
 * names and library imports found in JavaScript/React text, a canned summary per
 * function name, a documentation link per library, and the two project-wide counts
 * the analysis reports. `re.finditer` is not modelled: the captured group of each
 * pattern's matches, in match order, is what the `scan` oracle returns for a text.
 */
module EnhancedParser {
  import opened Strings
  import opened Seqs

  /** `{"name": ..., "summary": ...}`, one per function match. */
  datatype FunctionEntry = FunctionEntry(name: string, summary: string)

  /** `{"name": ..., "link": ...}`, one per distinct library name. */
  datatype LibraryEntry = LibraryEntry(name: string, link: string)

  /**
   * Group 1 of every match of each pattern, in match order: `function f(..) {..}`,
   * `const f = (..) => {..}` and `f: (..) => {..}` for functions; `import .. from 'p'`,
   * `import 'p'` and `require('p')` for imports.
   */
  datatype Captures = Captures(
    functionDeclarations: seq<string>,
    constArrows: seq<string>,
    propertyArrows: seq<string>,
    fromImports: seq<string>,
    bareImports: seq<string>,
    requireImports: seq<string>)

  /** The function patterns' captures, in the order the patterns are tried. */
  function FunctionPatterns(c: Captures): seq<seq<string>>
  {
    [c.functionDeclarations, c.constArrows, c.propertyArrows]
  }

  /** The import patterns' captures, in the order the patterns are tried. */
  function ImportPatterns(c: Captures): seq<seq<string>>
  {
    [c.fromImports, c.bareImports, c.requireImports]
  }

  // ---------------------------------------------------------------------------
  // Function summaries

  /**
   * The canned summaries. Each text is the concatenation of short literal
   * pieces only because one long string literal per entry makes every proof
   * that looks a name up in this table much more expensive for the solver;
   * the concatenated values are exactly the source's texts.
   */
  const Summaries: map<string, string> := map[
    "handleChange" :=
      "Handles input changes with " +
      "debounced search functionality. " +
      "Uses lodash.debounce to prevent " +
      "excessive API calls.",
    "handleSubmit" :=
      "Handles form submission events. " +
      "Prevents default form behavior and " +
      "triggers immediate search.",
    "formatDate" :=
      "Formats date strings into readable " +
      "format using JavaScript's " +
      "toLocaleDateString with US locale " +
      "settings.",
    "truncateText" :=
      "Truncates text to specified length " +
      "and adds ellipsis for better UI " +
      "display.",
    "validateSearchQuery" :=
      "Validates search query input " +
      "ensuring it's a non-empty string " +
      "with minimum length requirements.",
    "filterResults" :=
      "Filters search results based on " +
      "query, performing case-insensitive " +
      "matching on title and description.",
    "sortByRelevance" :=
      "Sorts results by relevance, " +
      "prioritizing title matches over " +
      "description matches, then by date " +
      "(newer first).",
    "handleSearch" :=
      "Updates search results state and " +
      "manages the search process.",
    "renderResult" :=
      "Renders individual search result " +
      "items with proper formatting and " +
      "styling."
  ]

  function DefaultSummary(name: string): string
  {
    "Function " + name + " performs specific task within the application."
  }

  /** The canned summary, or the default sentence, which names the function. */
  function GetFunctionSummary(name: string): (r: string)
    ensures name !in Summaries ==> Contains(r, name)
  {
    if name in Summaries then Summaries[name]
    else
      ContainsAt(DefaultSummary(name), 9, name);
      DefaultSummary(name)
  }

  /** No canned summary begins like the default sentence (`Fu...`). */
  lemma KnownSummaryNotDefault(name: string, other: string)
    requires name in Summaries
    ensures Summaries[name] != DefaultSummary(other)
  {
    var d := DefaultSummary(other);
    assert d[0] == 'F' && d[1] == 'u';
    var s := Summaries[name];
    if name == "formatDate" {
      assert s[1] == 'o';
    } else if name == "filterResults" {
      assert s[1] == 'i';
    } else {
      assert s[0] != 'F';
    }
  }

  /**
   * The summary is the default sentence exactly when the name has no canned
   * summary; a canned summary is the table's text for that name.
   */
  lemma SummaryDefaultIff(name: string)
    ensures GetFunctionSummary(name) == DefaultSummary(name) <==> name !in Summaries
    ensures name in Summaries ==> GetFunctionSummary(name) == Summaries[name]
  {
    if name in Summaries {
      KnownSummaryNotDefault(name, name);
    }
  }

  // ---------------------------------------------------------------------------
  // Library links

  /**
   * The fixed links. Each is written as the `https://` scheme followed by the
   * rest of the address so that the scheme can be read off the concatenation
   * instead of character by character; the values are exactly the source's URLs.
   */
  const Links: map<string, string> := map[
    "lodash" := "https://" + "lodash.com/",
    "axios" := "https://" + "axios-http.com/",
    "react" := "https://" + "reactjs.org/",
    "react-dom" := "https://" + "reactjs.org/" + "docs/react-dom.html"
  ]

  function NpmLink(name: string): string
  {
    "https://www.npmjs.com/" + "package/" + name
  }

  /** The fixed link, or the npm package page; either way an `https://` address. */
  function GetLibraryLink(name: string): (r: string)
    ensures StartsWith(r, "https://")
  {
    if name in Links then
      TableLink(name);
      Links[name]
    else
      assert NpmLink(name) == "https://" + ("www.npmjs.com/" + "package/" + name);
      NpmLink(name)
  }

  /** Exactly the four fixed libraries get a link other than their npm package page. */
  lemma LibraryLinkIff(name: string)
    ensures GetLibraryLink(name) == NpmLink(name) <==> name !in Links
    ensures name in Links ==> GetLibraryLink(name) == Links[name]
  {
    var n := NpmLink(name);
    assert n[8] == 'w';
    if name in Links {
      TableLink(name);
    }
  }

  /** Each fixed link is an `https://` address whose host does not start with `w`. */
  lemma TableLink(name: string)
    requires name in Links
    ensures |Links[name]| > 8 && Links[name][8] != 'w' && StartsWith(Links[name], "https://")
  {
    if name == "lodash" {
      SecureLink(Links["lodash"], "lodash.com/");
    } else if name == "axios" {
      SecureLink(Links["axios"], "axios-http.com/");
    } else if name == "react" {
      SecureLink(Links["react"], "reactjs.org/");
    } else {
      assert name == "react-dom";
      SecureLink(Links["react-dom"], "reactjs.org/" + "docs/react-dom.html");
    }
  }

  lemma SecureLink(l: string, host: string)
    requires l == "https://" + host && |host| > 0 && host[0] != 'w'
    ensures |l| > 8 && l[8] != 'w' && StartsWith(l, "https://")
  {
    assert l[..8] == "https://";
  }

  // ---------------------------------------------------------------------------
  // extract_functions

  /** One entry per captured name, in capture order, each with its summary. */
  function Entries(names: seq<string>): seq<FunctionEntry>
  {
    if |names| == 0 then []
    else
      var n := names[|names| - 1];
      Entries(names[..|names| - 1]) + [FunctionEntry(n, GetFunctionSummary(n))]
  }

  lemma EntriesSnoc(names: seq<string>, n: string)
    ensures Entries(names + [n]) == Entries(names) + [FunctionEntry(n, GetFunctionSummary(n))]
  {
    assert (names + [n])[..|names|] == names;
  }

  /** Entry `k` is the `k`-th captured name with that name's summary. */
  lemma {:induction false} EntriesAt(names: seq<string>)
    ensures |Entries(names)| == |names|
    ensures forall k :: 0 <= k < |names| ==> Entries(names)[k] == FunctionEntry(names[k], GetFunctionSummary(names[k]))
  {
    if |names| > 0 {
      EntriesAt(names[..|names| - 1]);
    }
  }

  lemma {:induction false} EntriesAppend(a: seq<string>, b: seq<string>)
    ensures Entries(a + b) == Entries(a) + Entries(b)
    decreases |b|
  {
    if |b| == 0 {
      AppendEmpty(a, b);
    } else {
      var p := b[..|b| - 1];
      var e := [FunctionEntry(b[|b| - 1], GetFunctionSummary(b[|b| - 1]))];
      AppendLast(a, b);
      assert Entries(a + b) == Entries(a + p) + e;
      EntriesAppend(a, p);
      AppendAssoc(Entries(a), Entries(p), e);
    }
  }

  /** The function entries of one text's captures: pattern by pattern, match by match. */
  function ExtractedFunctions(c: Captures): seq<FunctionEntry>
  {
    Entries(Flatten(FunctionPatterns(c)))
  }

  /** The inner loop of `extract_functions`: one entry per match of one pattern. */
  method AddFunctionEntries(functions: seq<FunctionEntry>, matches: seq<string>, ghost done: seq<string>)
    returns (r: seq<FunctionEntry>)
    requires functions == Entries(done)
    ensures r == Entries(done + matches)
  {
    r := functions;
    var j := 0;
    assert done + matches[..0] == done;
    while j < |matches|
      invariant 0 <= j <= |matches|
      invariant r == Entries(done + matches[..j])
    {
      var functionName := matches[j];
      assert done + matches[..j + 1] == (done + matches[..j]) + [functionName];
      EntriesSnoc(done + matches[..j], functionName);
      r := r + [FunctionEntry(functionName, GetFunctionSummary(functionName))];
      j := j + 1;
    }
    assert matches[..j] == matches;
  }

  /** For each pattern in turn, one entry per match, each with its summary. */
  method ExtractFunctions(content: string, scan: string -> Captures) returns (functions: seq<FunctionEntry>)
    ensures functions == ExtractedFunctions(scan(content))
  {
    var patterns := FunctionPatterns(scan(content));
    functions := [];
    var p := 0;
    while p < |patterns|
      invariant 0 <= p <= |patterns|
      invariant functions == Entries(Flatten(patterns[..p]))
    {
      FlattenStep(patterns, p);
      functions := AddFunctionEntries(functions, patterns[p], Flatten(patterns[..p]));
      p := p + 1;
    }
    TakeAll(patterns, []);
  }

  /** Entries of three lists joined: each list's entries in turn, position by position. */
  lemma EntriesLayout(a: seq<string>, b: seq<string>, m: seq<string>)
    ensures var r := Entries(a + b + m);
      |r| == |a| + |b| + |m| &&
      (forall k :: 0 <= k < |a| ==> r[k].name == a[k]) &&
      (forall k :: 0 <= k < |b| ==> r[|a| + k].name == b[k]) &&
      (forall k :: 0 <= k < |m| ==> r[|a| + |b| + k].name == m[k]) &&
      (forall k :: 0 <= k < |r| ==> r[k].summary == GetFunctionSummary(r[k].name))
  {
    var all := a + b + m;
    var r := Entries(all);
    EntriesAt(all);
    forall k | 0 <= k < |a| ensures r[k].name == a[k] {
      assert all[k] == a[k];
    }
    forall k | 0 <= k < |b| ensures r[|a| + k].name == b[k] {
      assert all[|a| + k] == b[k];
    }
    forall k | 0 <= k < |m| ensures r[|a| + |b| + k].name == m[k] {
      assert all[|a| + |b| + k] == m[k];
    }
  }

  /**
   * All declaration matches come first, then all `const` arrows, then all property
   * arrows; nothing is dropped or merged, so a name matched by two patterns is listed
   * twice, and every entry carries its name's summary.
   */
  lemma ExtractedFunctionsLayout(c: Captures)
    ensures var r := ExtractedFunctions(c);
      var a, b, m := c.functionDeclarations, c.constArrows, c.propertyArrows;
      |r| == |a| + |b| + |m| &&
      (forall k :: 0 <= k < |a| ==> r[k].name == a[k]) &&
      (forall k :: 0 <= k < |b| ==> r[|a| + k].name == b[k]) &&
      (forall k :: 0 <= k < |m| ==> r[|a| + |b| + k].name == m[k]) &&
      (forall k :: 0 <= k < |r| ==> r[k].summary == GetFunctionSummary(r[k].name))
  {
    FlattenThree(c.functionDeclarations, c.constArrows, c.propertyArrows);
    EntriesLayout(c.functionDeclarations, c.constArrows, c.propertyArrows);
  }

  /** Pattern by pattern, the entries are the concatenation of each pattern's entries. */
  lemma ExtractedFunctionsByPattern(c: Captures)
    ensures ExtractedFunctions(c) == Entries(c.functionDeclarations) + Entries(c.constArrows) + Entries(c.propertyArrows)
  {
    FlattenThree(c.functionDeclarations, c.constArrows, c.propertyArrows);
    EntriesAppend(c.functionDeclarations, c.constArrows);
    EntriesAppend(c.functionDeclarations + c.constArrows, c.propertyArrows);
  }

  // ---------------------------------------------------------------------------
  // extract_libraries

  /** `import_path.split('/')[0]`: a scoped or nested path keeps only its first segment. */
  function LibraryName(importPath: string): (r: string)
    ensures '/' !in r && r <= importPath
  {
    Before(importPath, '/')
  }

  /** The library name of each path, in order (possibly repeated). */
  function Names(paths: seq<string>): (r: seq<string>)
    ensures |r| == |paths|
    ensures forall k :: 0 <= k < |paths| ==> r[k] == LibraryName(paths[k])
  {
    if |paths| == 0 then [] else Names(paths[..|paths| - 1]) + [LibraryName(paths[|paths| - 1])]
  }

  /** One entry per name, with that name's link. */
  function LibraryEntries(names: seq<string>): seq<LibraryEntry>
  {
    if |names| == 0 then []
    else
      var n := names[|names| - 1];
      LibraryEntries(names[..|names| - 1]) + [LibraryEntry(n, GetLibraryLink(n))]
  }

  /** `[lib["name"] for lib in libraries]`. */
  function LibraryNames(libraries: seq<LibraryEntry>): seq<string>
  {
    seq(|libraries|, k requires 0 <= k < |libraries| => libraries[k].name)
  }

  lemma {:induction false} LibraryEntriesAt(names: seq<string>)
    ensures |LibraryEntries(names)| == |names|
    ensures forall k :: 0 <= k < |names| ==> LibraryEntries(names)[k] == LibraryEntry(names[k], GetLibraryLink(names[k]))
  {
    if |names| > 0 {
      LibraryEntriesAt(names[..|names| - 1]);
    }
  }

  /** Listing the entries' names gives back the names the entries were made from. */
  lemma {:induction false} LibraryNamesOf(names: seq<string>)
    ensures LibraryNames(LibraryEntries(names)) == names
  {
    if |names| > 0 {
      var p := names[..|names| - 1];
      LibraryNamesOf(p);
      var n := names[|names| - 1];
      var e := LibraryEntries(p) + [LibraryEntry(n, GetLibraryLink(n))];
      assert LibraryNames(e) == LibraryNames(LibraryEntries(p)) + [n];
      assert names == p + [n];
    }
  }

  lemma LibraryEntriesSnoc(names: seq<string>, n: string)
    ensures LibraryEntries(names + [n]) == LibraryEntries(names) + [LibraryEntry(n, GetLibraryLink(n))]
  {
    assert (names + [n])[..|names|] == names;
  }

  function ImportPaths(c: Captures): seq<string>
  {
    Flatten(ImportPatterns(c))
  }

  /** The distinct library names of all captured paths, pattern by pattern, where first seen. */
  function ExtractedLibraryNames(c: Captures): seq<string>
  {
    Dedup(Names(ImportPaths(c)))
  }

  function ExtractedLibraries(c: Captures): seq<LibraryEntry>
  {
    LibraryEntries(ExtractedLibraryNames(c))
  }

  lemma AddLibraryStep(seen: seq<string>, path: string)
    ensures var n := LibraryName(path);
      var d := Dedup(Names(seen));
      Dedup(Names(seen + [path])) == if n in d then d else d + [n]
  {
    assert (seen + [path])[..|seen|] == seen;
    var s := Names(seen) + [LibraryName(path)];
    assert Names(seen + [path]) == s;
    assert s[..|s| - 1] == Names(seen);
  }

  lemma AddLibraryAt(done: seq<string>, matches: seq<string>, j: nat)
    requires j < |matches|
    ensures var n := LibraryName(matches[j]);
      var d := Dedup(Names(done + matches[..j]));
      Dedup(Names(done + matches[..j + 1])) == if n in d then d else d + [n]
  {
    TakeSnoc(matches, j);
    assert done + matches[..j + 1] == (done + matches[..j]) + [matches[j]];
    AddLibraryStep(done + matches[..j], matches[j]);
  }

  /** The inner loop of `extract_libraries`: adds each path's library name unless listed. */
  method AddLibraries(libraries: seq<LibraryEntry>, matches: seq<string>, ghost done: seq<string>)
    returns (r: seq<LibraryEntry>)
    requires libraries == LibraryEntries(Dedup(Names(done)))
    ensures r == LibraryEntries(Dedup(Names(done + matches)))
  {
    r := libraries;
    ghost var listed := Dedup(Names(done));
    var j := 0;
    TakeAll(matches, done);
    while j < |matches|
      invariant 0 <= j <= |matches|
      invariant listed == Dedup(Names(done + matches[..j]))
      invariant r == LibraryEntries(listed)
    {
      var importPath := matches[j];
      var libraryName := LibraryName(importPath);
      AddLibraryAt(done, matches, j);
      LibraryNamesOf(listed);
      if libraryName !in LibraryNames(r) {
        LibraryEntriesSnoc(listed, libraryName);
        r := r + [LibraryEntry(libraryName, GetLibraryLink(libraryName))];
        listed := listed + [libraryName];
      }
      j := j + 1;
    }
  }

  /** For each pattern and match in turn, adds the path's library name unless already listed. */
  method ExtractLibraries(content: string, scan: string -> Captures) returns (libraries: seq<LibraryEntry>)
    ensures libraries == ExtractedLibraries(scan(content))
  {
    var patterns := ImportPatterns(scan(content));
    libraries := [];
    var p := 0;
    while p < |patterns|
      invariant 0 <= p <= |patterns|
      invariant libraries == LibraryEntries(Dedup(Names(Flatten(patterns[..p]))))
    {
      FlattenStep(patterns, p);
      libraries := AddLibraries(libraries, patterns[p], Flatten(patterns[..p]));
      p := p + 1;
    }
    TakeAll(patterns, []);
  }

  /** No library name is listed twice, there are no more entries than captured paths, and each carries its name's link. */
  lemma ExtractedLibrariesDistinct(c: Captures)
    ensures var r := ExtractedLibraries(c);
      NoDup(LibraryNames(r)) &&
      |r| <= |ImportPaths(c)| &&
      (forall k :: 0 <= k < |r| ==> r[k].link == GetLibraryLink(r[k].name))
  {
    var d := ExtractedLibraryNames(c);
    LibraryEntriesAt(d);
    LibraryNamesOf(d);
  }

  /** Each listed name is some captured path's text before its first `/`, so it holds no `/`. */
  lemma ExtractedLibrariesSound(c: Captures)
    ensures var paths := ImportPaths(c);
      var r := ExtractedLibraries(c);
      forall k :: 0 <= k < |r| ==>
        '/' !in r[k].name && exists i :: 0 <= i < |paths| && r[k].name == paths[i][..IndexOf(paths[i], '/')]
  {
    var paths := ImportPaths(c);
    var ns := Names(paths);
    var d := Dedup(ns);
    var r := ExtractedLibraries(c);
    LibraryEntriesAt(d);
    forall k | 0 <= k < |r|
      ensures '/' !in r[k].name && exists i :: 0 <= i < |paths| && r[k].name == paths[i][..IndexOf(paths[i], '/')]
    {
      var i :| 0 <= i < |ns| && ns[i] == d[k];
      assert ns[i] == LibraryName(paths[i]) == paths[i][..IndexOf(paths[i], '/')];
    }
  }

  /** Every captured path's library name is listed. */
  lemma ExtractedLibrariesComplete(c: Captures)
    ensures var paths := ImportPaths(c);
      var r := ExtractedLibraries(c);
      forall i :: 0 <= i < |paths| ==> exists k :: 0 <= k < |r| && r[k].name == LibraryName(paths[i])
  {
    var paths := ImportPaths(c);
    var ns := Names(paths);
    var d := Dedup(ns);
    var r := ExtractedLibraries(c);
    LibraryEntriesAt(d);
    forall i | 0 <= i < |paths|
      ensures exists k :: 0 <= k < |r| && r[k].name == LibraryName(paths[i])
    {
      assert ns[i] in d;
      var k :| 0 <= k < |d| && d[k] == ns[i];
      assert r[k].name == d[k];
    }
  }

  /** Libraries are listed in the order their names are first captured. */
  lemma ExtractedLibrariesOrder(c: Captures, i: nat, j: nat)
    requires i < j < |ExtractedLibraries(c)|
    ensures var ns := Names(ImportPaths(c));
      var r := ExtractedLibraries(c);
      r[i].name in ns && r[j].name in ns && FirstIndex(ns, r[i].name) < FirstIndex(ns, r[j].name)
  {
    var d := ExtractedLibraryNames(c);
    LibraryEntriesAt(d);
    DedupFirstSeenOrder(Names(ImportPaths(c)), i, j);
  }

  /** A submodule import counts under its package: `pkg/sub` names `pkg`. */
  lemma PackageOfSubmodule(pkg: string, sub: string)
    requires '/' !in pkg
    ensures LibraryName(pkg + "/" + sub) == pkg
  {
    assert pkg + "/" + sub == pkg + ['/'] + sub;
    IndexOfAt(pkg, '/', sub);
    assert (pkg + ['/'] + sub)[..|pkg|] == pkg;
  }

  /** Every same-directory import `./x` names the library `.`. */
  lemma PackageOfRelative(rest: string)
    ensures LibraryName("./" + rest) == "."
  {
    assert "./" + rest == "." + "/" + rest;
    PackageOfSubmodule(".", rest);
  }

  lemma NamesOfThree(x: string, y: string, z: string)
    ensures Names([x, y, z]) == [LibraryName(x), LibraryName(y), LibraryName(z)]
  {
    var s := [x, y, z];
    assert s[..2] == [x, y] && [x, y][..1] == [x] && [x][..0] == [];
  }

  lemma SubmoduleAndRelativeNames(pkg: string, sub: string, a: string, b: string)
    requires '/' !in pkg
    ensures Names([pkg + "/" + sub, "./" + a, "./" + b]) == [pkg, ".", "."]
  {
    NamesOfThree(pkg + "/" + sub, "./" + a, "./" + b);
    PackageOfSubmodule(pkg, sub);
    PackageOfRelative(a);
    PackageOfRelative(b);
  }

  /** A name seen again is not listed again. */
  lemma RepeatedNameListedOnce(pkg: string)
    requires pkg != "."
    ensures Dedup([pkg, ".", "."]) == [pkg, "."]
  {
    var ns := [pkg, ".", "."];
    var one, two := ns[..1], ns[..2];
    assert one[..0] == [];
    assert Dedup(one) == [pkg];
    assert two[..1] == one;
    assert Dedup(two) == [pkg, "."];
    assert ns[..2] == two;
  }

  /**
   * A submodule import counts under its package (`lodash/debounce` is `lodash`),
   * while two relative imports `./a` and `./b` collapse into one library named
   * `.`, each with its link.
   */
  lemma SubmoduleAndRelativeImports(pkg: string, sub: string, a: string, b: string)
    requires '/' !in pkg && pkg != "."
    ensures ExtractedLibraries(Captures([], [], [], [pkg + "/" + sub, "./" + a, "./" + b], [], [])) ==
      [LibraryEntry(pkg, GetLibraryLink(pkg)), LibraryEntry(".", GetLibraryLink("."))]
  {
    var paths := [pkg + "/" + sub, "./" + a, "./" + b];
    var c := Captures([], [], [], paths, [], []);
    assert ImportPaths(c) == paths by {
      FlattenThree(paths, [], []);
    }
    assert ExtractedLibraryNames(c) == [pkg, "."] by {
      SubmoduleAndRelativeNames(pkg, sub, a, b);
      RepeatedNameListedOnce(pkg);
    }
    TwoLibraryEntries(pkg, ".");
  }

  lemma TwoLibraryEntries(x: string, y: string)
    ensures LibraryEntries([x, y]) == [LibraryEntry(x, GetLibraryLink(x)), LibraryEntry(y, GetLibraryLink(y))]
  {
    var d := [x, y];
    assert [x][..0] == [];
    assert LibraryEntries([x]) == [LibraryEntry(x, GetLibraryLink(x))];
    assert d[..1] == [x];
  }

  // ---------------------------------------------------------------------------
  // Project-wide counts

  /** One analysed file: its matched functions and its distinct libraries. */
  datatype FileAnalysis = FileAnalysis(filename: string, functions: seq<FunctionEntry>, externalLibraries: seq<LibraryEntry>)

  /** `sum(len(f["functions"]) for f in analyzed_files)`. */
  function TotalFunctions(files: seq<FileAnalysis>): nat
  {
    Sum(seq(|files|, i requires 0 <= i < |files| => |files[i].functions|))
  }

  function FunctionLists(files: seq<FileAnalysis>): seq<seq<FunctionEntry>>
  {
    seq(|files|, i requires 0 <= i < |files| => files[i].functions)
  }

  /** Every library name of every file, file by file. */
  function AllLibraryNames(files: seq<FileAnalysis>): seq<string>
  {
    if |files| == 0 then []
    else
      var ls := files[|files| - 1].externalLibraries;
      AllLibraryNames(files[..|files| - 1]) + seq(|ls|, k requires 0 <= k < |ls| => ls[k].name)
  }

  /** `len(set(lib["name"] for f in analyzed_files for lib in f["external_libraries"]))`. */
  function TotalLibraries(files: seq<FileAnalysis>): nat
  {
    |Elements(AllLibraryNames(files))|
  }

  lemma TotalFunctionsSnoc(files: seq<FileAnalysis>, f: FileAnalysis)
    ensures TotalFunctions(files + [f]) == TotalFunctions(files) + |f.functions|
  {
    var fs := files + [f];
    var counts := seq(|fs|, i requires 0 <= i < |fs| => |fs[i].functions|);
    assert counts[..|files|] == seq(|files|, i requires 0 <= i < |files| => |files[i].functions|);
  }

  /** The function total counts every entry of every file: the length of all lists joined. */
  lemma {:induction false} TotalFunctionsFlat(files: seq<FileAnalysis>)
    ensures TotalFunctions(files) == |Flatten(FunctionLists(files))|
  {
    if |files| > 0 {
      var p := files[..|files| - 1];
      assert files == p + [files[|files| - 1]];
      TotalFunctionsFlat(p);
      TotalFunctionsSnoc(p, files[|files| - 1]);
      assert FunctionLists(files)[..|files| - 1] == FunctionLists(p);
    }
  }

  lemma {:induction false} NoDupElements<T>(s: seq<T>)
    requires NoDup(s)
    ensures |Elements(s)| == |s|
  {
    if |s| > 0 {
      var p := s[..|s| - 1];
      var x := s[|s| - 1];
      assert s == p + [x];
      NoDupElements(p);
      ElementsSnoc(p, x);
      assert x !in Elements(p);
    }
  }

  lemma DedupElements<T>(s: seq<T>)
    ensures Elements(Dedup(s)) == Elements(s)
  {
    var d := Dedup(s);
    forall y | y in Elements(s) ensures y in Elements(d) {
      var i :| 0 <= i < |s| && s[i] == y;
      assert s[i] in d;
      var k :| 0 <= k < |d| && d[k] == y;
    }
  }

  /**
   * The library total is the number of distinct names across all files: shared
   * libraries count once, so the total never exceeds the number of entries, and a
   * name counts iff some file lists it.
   */
  lemma TotalLibrariesSpec(files: seq<FileAnalysis>)
    ensures TotalLibraries(files) == |Dedup(AllLibraryNames(files))|
    ensures TotalLibraries(files) <= |AllLibraryNames(files)|
  {
    var all := AllLibraryNames(files);
    DedupElements(all);
    NoDupElements(Dedup(all));
  }

  /** A library listed by every one of two files is counted once. */
  lemma SharedLibraryCountsOnce(a: FileAnalysis, b: FileAnalysis, lib: LibraryEntry)
    requires a.externalLibraries == [lib] && b.externalLibraries == [lib]
    ensures TotalLibraries([a, b]) == 1
  {
    assert [a, b][..1] == [a];
    assert [a][..0] == [];
    assert AllLibraryNames([a]) == [lib.name];
    assert AllLibraryNames([a, b]) == [lib.name, lib.name];
    var e: seq<string> := [];
    assert Elements(e) == {};
    assert [lib.name] == e + [lib.name];
    ElementsSnoc(e, lib.name);
    assert [lib.name, lib.name] == [lib.name] + [lib.name];
    ElementsSnoc([lib.name], lib.name);
  }
}
