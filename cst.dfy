/**
 * The subset of libcst's concrete syntax tree that the builders produce,
 * split the way libcst types it: expressions, the annotation, the small
 * statements that fill a statement line, the statements of a module or a
 * class body, and the module. A field that libcst types as `cst.Name` and
 * that the builders always fill with `cst.Name(value=s)` is stored as the
 * string `s`; a `cst.Element` of a list is stored as its value.
 */
module Cst {
  import opened Wrappers

  /** libcst's `BitOr()`, the only binary operator the builders emit. */
  datatype BinaryOp = BitOr

  datatype Expression =
    | Name(id: string)
      /** `value.attr`; `attr` is the Name node's value. */
    | Attribute(obj: Expression, attr: string)
      /** `literal` is the literal's text, quotes included. */
    | SimpleString(literal: string)
    | List(items: seq<Expression>)
    | Dict(entries: seq<DictElement>)
    | Call(func: Expression, args: seq<Arg>)
    | BinaryOperation(left: Expression, operator: BinaryOp, right: Expression)

  datatype DictElement = DictElement(key: Expression, value: Expression)

  /** A call argument; `keyword` is the Name of a keyword argument. */
  datatype Arg = Arg(value: Expression, keyword: Option<string>)

  /** A type annotation such as the `: int | str` of a parameter. */
  datatype Annotation = Annotation(annotation: Expression)

  /** The statements that may stand in a statement line. */
  datatype SmallStatement =
      /** Each target is the `target` of an `AssignTarget`. */
    | Assign(targets: seq<Expression>, rhs: Expression)
      /** Each imported name is the name of an `ImportAlias`. */
    | ImportFrom(source: Expression, names: seq<string>)
    | Expr(expr: Expression)

  /** The statements of a module body or of an indented block. */
  datatype Statement =
    | SimpleStatementLine(body: seq<SmallStatement>)
      /** `block` is the statements of the class's `IndentedBlock`. */
    | ClassDef(className: string, block: seq<Statement>, bases: seq<Arg>)

  datatype Module = Module(body: seq<Statement>)

  /**
   * Reads a `Name` / `Attribute` chain back as its segments, innermost
   * first: `Name(a)` is `[a]`, and each enclosing `Attribute` adds its
   * `attr` at the end. Any other node is not a dotted name.
   */
  function DottedParts(n: Expression): Option<seq<string>> {
    match n
    case Name(id) => Some([id])
    case Attribute(obj, attr) =>
      (match DottedParts(obj)
       case Some(ps) => Some(ps + [attr])
       case None => None)
    case _ => None
  }

  /**
   * Reads a right-nested chain of `|` back as its left operands in order:
   * `Name(a)` is `[a]`; `BinaryOperation(Name(a), BitOr, rest)` is `a`
   * followed by the operands of `rest`.
   */
  function UnionOperands(n: Expression): Option<seq<string>> {
    match n
    case Name(id) => Some([id])
    case BinaryOperation(Name(first), BitOr, rest) =>
      (match UnionOperands(rest)
       case Some(ts) => Some([first] + ts)
       case None => None)
    case _ => None
  }

  /** The number of `BinaryOperation` nodes along the right spine of `n`. */
  function BitOrCount(n: Expression): nat {
    if n.BinaryOperation? then 1 + BitOrCount(n.right) else 0
  }
}
