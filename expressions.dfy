/**
 * The builders of fluentcst that are never changed after construction:
 * `String`, `Attribute`, `List`, `Call` and `ImportFrom`, the union chain
 * `_bin_or`, and the statement-line wrapping of `FluentCstNode.to_code`.
 * Each conversion to a tree comes with a reader that recovers the builder
 * from the tree, so that no conversion loses information.
 */
module Expressions {
  import opened Wrappers
  import opened Paths
  import Cst

  /** The exceptions the builders raise. */
  datatype Error =
      /** The `assert` of `Attribute.__init__`: the path has no dot. */
    | InvalidPath(path: string)
      /** The `raise` of `_value`: a value of a kind it does not accept. */
    | UnexpectedValue(kind: string)

  // ---------------------------------------------------------------------
  // FluentCstNode.to_code

  /**
   * The tree of a builder whose `to_cst` gives what it is declared to give:
   * a statement, or a `List` expression, held as its elements.
   */
  datatype Tree = StatementTree(statement: Cst.Statement) | ListTree(items: seq<Cst.Expression>)

  /**
   * The module that `to_code` hands to the renderer: its only statement is
   * the builder's statement, or the builder's `List` wrapped in an
   * expression statement line.
   */
  function ToCodeTree(t: Tree): (r: Cst.Module)
    ensures |r.body| == 1
    ensures t.StatementTree? ==> r.body[0] == t.statement
    ensures t.ListTree? ==> r.body[0] == Cst.SimpleStatementLine([Cst.Expr(Cst.List(t.items))])
  {
    match t
    case StatementTree(s) => Cst.Module([s])
    case ListTree(items) => Cst.Module([Cst.SimpleStatementLine([Cst.Expr(Cst.List(items))])])
  }

  // ---------------------------------------------------------------------
  // String

  /** The literal text between the two double quotes that delimit `lit`. */
  function Unquote(lit: string): Option<string> {
    if |lit| >= 2 && lit[0] == '"' && lit[|lit| - 1] == '"' then Some(lit[1..|lit| - 1])
    else None
  }

  /** Reads a `SimpleString` back as the text it quotes. */
  function ReadString(n: Cst.Expression): Option<string> {
    if n.SimpleString? then Unquote(n.literal) else None
  }

  /** A string literal builder. */
  datatype String = String(value: string) {

    /**
     * The literal is the value between double quotes, verbatim: a quote or
     * backslash inside the value is not escaped.
     */
    function ToCst(): (r: Cst.Expression)
      ensures r.SimpleString? && r.literal == ['"'] + value + ['"']
    {
      Cst.SimpleString(['"'] + value + ['"'])
    }
  }

  /** A string literal reads back as the text it was built from. */
  lemma StringRoundTrip(s: string)
    ensures ReadString(String(s).ToCst()) == Some(s)
  {
  }

  // ---------------------------------------------------------------------
  // Attribute

  /** A path the `Attribute` constructor accepts: one with at least one dot. */
  type DottedPath = p: string | Sep in p witness "a.b"

  /** `Attribute(path)`: the constructor's assertion as an error result. */
  function NewAttribute(path: string): (r: Result<Attribute, Error>)
    ensures r.Success? <==> Sep in path
    ensures r.Success? ==> r.value.path == path
    ensures r.Failure? ==> r.error == InvalidPath(path)
  {
    if Sep in path then Success(Attribute(path)) else Failure(InvalidPath(path))
  }

  /** A dotted attribute builder such as `Attribute("data.model.field")`. */
  datatype Attribute = Attribute(path: DottedPath) {

    /**
     * The chain of `Attribute` nodes over a `Name`: read innermost first,
     * its segments are exactly `path.split(".")`.
     */
    function ToCst(): (r: Cst.Expression)
      ensures r.Attribute?
      ensures Cst.DottedParts(r) == Some(Split(path))
    {
      SplitCount(path);
      var parts := Split(path);
      var n := |parts|;
      assert parts[..n - 1] + [parts[n - 1]] == parts;
      Cst.Attribute(NameOrAttr(parts[..n - 1]), parts[n - 1])
    }

    /** `to_cst` as the source runs it: split, pop the last segment, recurse. */
    method ToCstByPopping() returns (r: Cst.Expression)
      ensures r == ToCst()
    {
      SplitCount(path);
      var parts := new PartList(Split(path));
      var importSymbol := parts.Pop();
      var obj := NameOrAttrByPopping(parts);
      r := Cst.Attribute(obj, importSymbol);
    }
  }

  /**
   * `_name_or_attr`: a `Name` for a single segment, otherwise an
   * `Attribute` whose `attr` is the last segment over the chain of the
   * others.
   */
  function NameOrAttr(parts: seq<string>): (r: Cst.Expression)
    requires |parts| >= 1
    ensures Cst.DottedParts(r) == Some(parts)
    ensures r.Name? <==> |parts| == 1
  {
    if |parts| == 1 then
      assert [parts[0]] == parts;
      Cst.Name(parts[0])
    else
      var n := |parts|;
      assert parts[..n - 1] + [parts[n - 1]] == parts;
      Cst.Attribute(NameOrAttr(parts[..n - 1]), parts[n - 1])
  }

  /** Reads a chain of two or more segments back as the `Attribute` builder of their join. */
  function ReadAttribute(n: Cst.Expression): Option<Attribute> {
    if !n.Attribute? then None
    else match Cst.DottedParts(n)
      case Some(parts) =>
        var path := Join(parts);
        if Sep in path then Some(Attribute(path)) else None
      case None => None
  }

  /** An attribute chain reads back as the builder it was built from. */
  lemma AttributeRoundTrip(a: Attribute)
    ensures ReadAttribute(a.ToCst()) == Some(a)
  {
    JoinSplit(a.path);
  }

  /** The Python list of path segments that `to_cst` and `_name_or_attr` pop from. */
  class PartList {
    var items: seq<string>

    constructor (items: seq<string>)
      ensures this.items == items
    {
      this.items := items;
    }

    /** `list.pop()`: removes and returns the last segment. */
    method Pop() returns (last: string)
      requires items != []
      modifies this
      ensures last == old(items)[|old(items)| - 1]
      ensures items == old(items)[..|old(items)| - 1]
    {
      last := items[|items| - 1];
      items := items[..|items| - 1];
    }
  }

  /** `_name_or_attr` as the source runs it, popping from the shared list until it is empty. */
  method NameOrAttrByPopping(parts: PartList) returns (r: Cst.Expression)
    requires |parts.items| >= 1
    modifies parts
    ensures r == NameOrAttr(old(parts.items))
    ensures parts.items == []
    decreases |parts.items|
  {
    if |parts.items| == 1 {
      var id := parts.Pop();
      return Cst.Name(id);
    }
    var attr := parts.Pop();
    var obj := NameOrAttrByPopping(parts);
    r := Cst.Attribute(obj, attr);
  }

  // ---------------------------------------------------------------------
  // Call

  /** `Call(name, **kwargs)`: a callee name and its keyword arguments in order. */
  datatype Call = Call(name: string, kwargs: seq<(string, string)>) {

    /**
     * The callee is `Name(name)` as given, dots included; there is one
     * keyword argument per kwarg, in order, whose value is the string
     * literal of the kwarg's value.
     */
    function ToCst(): (r: Cst.Expression)
      ensures r.Call? && r.func == Cst.Name(name)
      ensures |r.args| == |kwargs|
      ensures forall i :: 0 <= i < |kwargs| ==>
        r.args[i] == Cst.Arg(String(kwargs[i].1).ToCst(), Some(kwargs[i].0))
    {
      Cst.Call(Cst.Name(name), KeywordArgs(kwargs))
    }
  }

  /** A call's tree reads back as its builder. */
  lemma CallRoundTrip(c: Call)
    ensures ReadCall(c.ToCst()) == Some(c)
  {
    KeywordArgsRoundTrip(c.kwargs);
  }

  /** The `Arg(value=String(v).to_cst(), keyword=Name(k))` list of `Call.to_cst`. */
  function KeywordArgs(kwargs: seq<(string, string)>): (r: seq<Cst.Arg>)
    ensures |r| == |kwargs|
  {
    seq(|kwargs|, i requires 0 <= i < |kwargs| => Cst.Arg(String(kwargs[i].1).ToCst(), Some(kwargs[i].0)))
  }

  /** Reads keyword arguments whose values are string literals back as (keyword, text) pairs. */
  function ReadKeywordArgs(args: seq<Cst.Arg>): Option<seq<(string, string)>> {
    if args == [] then Some([])
    else match (args[0].keyword, ReadString(args[0].value), ReadKeywordArgs(args[1..]))
      case (Some(k), Some(v), Some(rest)) => Some([(k, v)] + rest)
      case _ => None
  }

  lemma {:induction false} KeywordArgsRoundTrip(kwargs: seq<(string, string)>)
    ensures ReadKeywordArgs(KeywordArgs(kwargs)) == Some(kwargs)
  {
    if kwargs != [] {
      StringRoundTrip(kwargs[0].1);
      KeywordArgsRoundTrip(kwargs[1..]);
      assert KeywordArgs(kwargs)[1..] == KeywordArgs(kwargs[1..]);
      assert [kwargs[0]] + kwargs[1..] == kwargs;
    }
  }

  /** Reads a call of a plain name with string-valued keyword arguments back as its builder. */
  function ReadCall(n: Cst.Expression): Option<Call> {
    if n.Call? && n.func.Name? then
      match ReadKeywordArgs(n.args)
      case Some(kwargs) => Some(Call(n.func.id, kwargs))
      case None => None
    else None
  }

  // ---------------------------------------------------------------------
  // List

  /** An element of a `List` builder: a string or a `Call` builder. */
  datatype ListItem = Text(text: string) | CallItem(call: Call)

  /** A string becomes a string literal; a builder is converted by its own `to_cst`. */
  function ItemToCst(item: ListItem): Cst.Expression {
    match item
    case Text(s) => String(s).ToCst()
    case CallItem(c) => c.ToCst()
  }

  /** `List(elements)`: a list literal builder. */
  datatype List = List(elements: seq<ListItem>) {

    /** One element per input, in order. */
    function ToCst(): (r: Cst.Expression)
      ensures r.List? && |r.items| == |elements|
      ensures forall i :: 0 <= i < |elements| ==> r.items[i] == ItemToCst(elements[i])
    {
      Cst.List(ListItems(elements))
    }
  }

  /** A list's tree reads back as its builder. */
  lemma ListRoundTrip(l: List)
    ensures ReadList(l.ToCst()) == Some(l)
  {
    ListItemsRoundTrip(l.elements);
  }

  /**
   * `to_code` on a list builder: the module handed to the renderer holds
   * one statement line whose only statement is the list as an expression,
   * and that list reads back as the builder.
   */
  lemma ListToCode(l: List)
    ensures var m := ToCodeTree(ListTree(l.ToCst().items));
      |m.body| == 1 && m.body[0].SimpleStatementLine? && |m.body[0].body| == 1
      && m.body[0].body[0].Expr? && ReadList(m.body[0].body[0].expr) == Some(l)
  {
    ListRoundTrip(l);
  }

  /** The elements of `List.to_cst`, converted one by one. */
  function ListItems(items: seq<ListItem>): (r: seq<Cst.Expression>)
    ensures |r| == |items|
  {
    seq(|items|, i requires 0 <= i < |items| => ItemToCst(items[i]))
  }

  function ReadListItem(n: Cst.Expression): Option<ListItem> {
    if n.SimpleString? then
      match ReadString(n)
      case Some(s) => Some(Text(s))
      case None => None
    else
      match ReadCall(n)
      case Some(c) => Some(CallItem(c))
      case None => None
  }

  function ReadListItems(ns: seq<Cst.Expression>): Option<seq<ListItem>> {
    if ns == [] then Some([])
    else match (ReadListItem(ns[0]), ReadListItems(ns[1..]))
      case (Some(x), Some(rest)) => Some([x] + rest)
      case _ => None
  }

  /** Reads a list literal back as its builder. */
  function ReadList(n: Cst.Expression): Option<List> {
    if !n.List? then None
    else match ReadListItems(n.items)
      case Some(items) => Some(List(items))
      case None => None
  }

  lemma {:induction false} ListItemsRoundTrip(items: seq<ListItem>)
    ensures ReadListItems(ListItems(items)) == Some(items)
  {
    if items != [] {
      ListItemsRoundTrip(items[1..]);
      assert ReadListItem(ItemToCst(items[0])) == Some(items[0]) by {
        match items[0]
        case Text(s) => StringRoundTrip(s);
        case CallItem(c) => CallRoundTrip(c);
      }
      assert ListItems(items)[1..] == ListItems(items[1..]);
      assert [items[0]] + items[1..] == items;
    }
  }

  // ---------------------------------------------------------------------
  // _bin_or

  /**
   * `_bin_or`: a single type is its `Name`; more are a right-nested chain
   * of `|` whose left operands are the types in order, with one `|` fewer
   * than there are types.
   */
  function BinOr(args: seq<string>): (r: Cst.Expression)
    requires |args| >= 1
    ensures |args| == 1 ==> r == Cst.Name(args[0])
    ensures |args| > 1 ==> r.BinaryOperation? && r.left == Cst.Name(args[0])
    ensures Cst.UnionOperands(r) == Some(args)
    ensures Cst.BitOrCount(r) == |args| - 1
  {
    if |args| == 1 then
      assert [args[0]] == args;
      Cst.Name(args[0])
    else
      assert [args[0]] + args[1..] == args;
      Cst.BinaryOperation(Cst.Name(args[0]), Cst.BitOr, BinOr(args[1..]))
  }

  // ---------------------------------------------------------------------
  // ImportFrom

  /** `ImportFrom(path, symbol)`: `from <path> import <symbol>`. */
  datatype ImportFrom = ImportFrom(path: string, symbol: string) {

    /**
     * One statement line holding one import of `symbol`. The module is the
     * `Attribute` chain of the path when it has a dot and `Name(path)`
     * otherwise; either way it reads back as the segments of the path.
     */
    function ToCst(): (r: Cst.Statement)
      ensures r.SimpleStatementLine? && |r.body| == 1 && r.body[0].ImportFrom?
      ensures r.body[0].names == [symbol]
      ensures Sep in path ==> r.body[0].source == Attribute(path).ToCst()
      ensures Sep !in path ==> r.body[0].source == Cst.Name(path)
      ensures Cst.DottedParts(r.body[0].source) == Some(Split(path))
    {
      assert Sep !in path ==> Split(path) == [path] by {
        if Sep !in path { SplitPiece(path); }
      }
      var source := if Sep in path then Attribute(path).ToCst() else Cst.Name(path);
      Cst.SimpleStatementLine([Cst.ImportFrom(source, [symbol])])
    }
  }

  /** Reads a one-import statement line back as its builder. */
  function ReadImportFrom(n: Cst.Statement): Option<ImportFrom> {
    if n.SimpleStatementLine? && |n.body| == 1 && n.body[0].ImportFrom? && |n.body[0].names| == 1 then
      match Cst.DottedParts(n.body[0].source)
      case Some(parts) => Some(ImportFrom(Join(parts), n.body[0].names[0]))
      case None => None
    else None
  }

  /** An import statement reads back as the builder it was built from. */
  lemma ImportFromRoundTrip(i: ImportFrom)
    ensures ReadImportFrom(i.ToCst()) == Some(i)
  {
    JoinSplit(i.path);
  }

  /**
   * `to_code` on an import builder: the module handed to the renderer holds
   * the import line alone, which reads back as the builder.
   */
  lemma ImportFromToCode(i: ImportFrom)
    ensures var m := ToCodeTree(StatementTree(i.ToCst()));
      |m.body| == 1 && ReadImportFrom(m.body[0]) == Some(i)
  {
    ImportFromRoundTrip(i);
  }
}
