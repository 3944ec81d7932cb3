/**
 * The nodes of Python's `ast.walk(ast.parse(content))` that the parsers look
 * at, in walk order. The parse itself is not modelled: a parser receives the
 * node sequence, or the syntax error's message, as an input.
 */
module PyAst {
  import opened Wrappers

  datatype Node =
    /** A `def`: its name, line, positional-argument names in order, `ast.get_docstring` and `ast.unparse` text. */
    | FunctionDef(name: string, lineno: int, args: seq<string>, docstring: Option<string>, source: string)
    /** A `class`: its name, line and `ast.get_docstring`. */
    | ClassDef(name: string, lineno: int, docstring: Option<string>)
    /** `import a, b`: the alias names in order. */
    | Import(names: seq<string>)
    /** `from M import a, b`: the module (absent for `from . import x`) and the alias names in order. */
    | ImportFrom(moduleName: Option<string>, names: seq<string>)
    /** Any other node. */
    | Other

  /** What parsing a content string yields: the walked nodes, or the error message. */
  type ParseOutcome = Result<seq<Node>, string>
}
