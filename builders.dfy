/**
 * The builders of fluentcst whose state grows through chainable methods:
 * `Dict`, `Annotation`, `ClassDef` and `Module`, together with the value
 * dispatcher `_value` that `ClassDef.field` sends every field value through.
 * Each chainable method appends to one list field and returns the builder
 * itself; `ToCst` builds the tree from the current state and changes nothing.
 */
module Builders {
  import opened Wrappers
  import opened Expressions
  import Cst

  // ---------------------------------------------------------------------
  // Dict

  /** A value a `Dict` element may hold: a string or an `Attribute` builder. */
  datatype DictValue = Str(s: string) | Attr(attribute: Attribute)

  /** `Dict._str_or_attr`: a string literal for a string, the attribute chain for an `Attribute`. */
  function StrOrAttr(v: DictValue): (r: Cst.Expression)
    ensures v.Str? ==> r.SimpleString?
    ensures v.Attr? ==> r.Attribute?
  {
    match v
    case Str(s) => String(s).ToCst()
    case Attr(a) => a.ToCst()
  }

  /** The tree of an element's value reads back as that value. */
  lemma DictValueRoundTrip(v: DictValue)
    ensures ReadDictValue(StrOrAttr(v)) == Some(v)
  {
    match v
    case Str(s) => StringRoundTrip(s);
    case Attr(a) => AttributeRoundTrip(a);
  }

  function ReadDictValue(n: Cst.Expression): Option<DictValue> {
    if n.SimpleString? then
      match ReadString(n)
      case Some(s) => Some(Str(s))
      case None => None
    else
      match ReadAttribute(n)
      case Some(a) => Some(Attr(a))
      case None => None
  }

  /**
   * The elements of `Dict.to_cst`: one per (key, value) pair, in order,
   * each key the string literal of the key.
   */
  function DictElements(pairs: seq<(string, DictValue)>): (r: seq<Cst.DictElement>)
    ensures |r| == |pairs|
  {
    seq(|pairs|, i requires 0 <= i < |pairs| => Cst.DictElement(String(pairs[i].0).ToCst(), StrOrAttr(pairs[i].1)))
  }

  function ReadDictElements(es: seq<Cst.DictElement>): Option<seq<(string, DictValue)>> {
    if es == [] then Some([])
    else match (ReadString(es[0].key), ReadDictValue(es[0].value), ReadDictElements(es[1..]))
      case (Some(k), Some(v), Some(rest)) => Some([(k, v)] + rest)
      case _ => None
  }

  /** Reads a dict literal back as its (key, value) pairs, in order. */
  function ReadDict(n: Cst.Expression): Option<seq<(string, DictValue)>> {
    if n.Dict? then ReadDictElements(n.entries) else None
  }

  /** The elements of a dict literal read back as exactly the pairs they were built from. */
  lemma {:induction false} DictElementsRoundTrip(pairs: seq<(string, DictValue)>)
    ensures ReadDictElements(DictElements(pairs)) == Some(pairs)
  {
    if pairs != [] {
      StringRoundTrip(pairs[0].0);
      DictValueRoundTrip(pairs[0].1);
      DictElementsRoundTrip(pairs[1..]);
      assert DictElements(pairs)[1..] == DictElements(pairs[1..]);
      assert [pairs[0]] + pairs[1..] == pairs;
    }
  }

  /** A dict literal reads back as exactly the pairs of the builder it was built from. */
  lemma DictRoundTrip(d: Dict)
    ensures ReadDict(d.ToCst()) == Some(d.elements)
  {
    DictElementsRoundTrip(d.elements);
  }

  /** A dict literal builder: (key, value) pairs in insertion order, duplicate keys kept. */
  class Dict {
    var elements: seq<(string, DictValue)>

    constructor ()
      ensures elements == []
    {
      elements := [];
    }

    /** `Dict.from_dict`: a new builder holding the mapping's items in iteration order. */
    static method FromDict(d: seq<(string, DictValue)>) returns (node: Dict)
      ensures fresh(node)
      ensures node.elements == d
    {
      node := new Dict();
      var i := 0;
      while i < |d|
        invariant 0 <= i <= |d|
        invariant node.elements == d[..i]
      {
        var _ := node.Element(d[i].0, d[i].1);
        assert d[..i + 1] == d[..i] + [d[i]];
        i := i + 1;
      }
    }

    /**
     * `Dict.element`: appends one pair at the end, leaves the earlier pairs
     * as they were (an equal key among them included) and returns this
     * builder; the tree gains one element at its end.
     */
    method Element(key: string, value: DictValue) returns (self: Dict)
      modifies this
      ensures elements == old(elements) + [(key, value)]
      ensures ToCst().entries == old(ToCst().entries) + [Cst.DictElement(String(key).ToCst(), StrOrAttr(value))]
      ensures self == this
    {
      elements := elements + [(key, value)];
      self := this;
    }

    /**
     * `Dict.to_cst`: one element per pair, in order, every key a string
     * literal.
     */
    function ToCst(): (r: Cst.Expression)
      reads this
      ensures r.Dict? && |r.entries| == |elements|
      ensures forall i :: 0 <= i < |elements| ==>
        r.entries[i].key.SimpleString? && r.entries[i].key == String(elements[i].0).ToCst()
    {
      Cst.Dict(DictElements(elements))
    }
  }

  // ---------------------------------------------------------------------
  // Annotation

  /** A union type annotation builder, seeded with one type name. */
  class Annotation {
    var types: seq<string>

    /** The builder always holds at least the type it was created with. */
    ghost predicate Valid()
      reads this
    {
      types != []
    }

    constructor (typeName: string)
      ensures Valid() && types == [typeName]
    {
      types := [typeName];
    }

    /** `Annotation.or_`: appends one type to the union and returns this builder. */
    method Or(typeName: string) returns (self: Annotation)
      requires Valid()
      modifies this
      ensures Valid()
      ensures types == old(types) + [typeName]
      ensures self == this
    {
      types := types + [typeName];
      self := this;
    }

    /**
     * `Annotation.to_cst`: the `_bin_or` chain of the types, whose operands
     * read back as the types in declared order, joined by one `|` fewer
     * than there are types.
     */
    function ToCst(): (r: Cst.Annotation)
      requires Valid()
      reads this
      ensures Cst.UnionOperands(r.annotation) == Some(types)
      ensures Cst.BitOrCount(r.annotation) == |types| - 1
    {
      Cst.Annotation(BinOr(types))
    }
  }

  // ---------------------------------------------------------------------
  // _value

  /** A Python value handed to `_value` that is not a `Dict` builder, classified by its kind. */
  datatype PlainValue =
    | StrValue(s: string)
      /** A plain `dict`, as its items in iteration order. */
    | MappingValue(items: seq<(string, DictValue)>)
      /** A plain `list`. */
    | ListValue(elements: seq<ListItem>)
    | CallValue(call: Call)
      /** Any other value (an integer, a boolean, another builder, ...), by the name of its type. */
    | OtherValue(kind: string)

  /** A Python value handed to `_value`: a plain value or a `Dict` builder. */
  datatype HostValue = Plain(plain: PlainValue) | DictBuilderValue(dict: Dict) {
    function Footprint(): set<Dict> {
      if DictBuilderValue? then {dict} else {}
    }

    /** Whether `_value` raises for this value. */
    predicate Rejected() {
      Plain? && plain.OtherValue?
    }
  }

  /**
   * What the tree of a value is made from, in the current state: a `Dict`
   * builder stands for the pairs it holds now.
   */
  function Snapshot(v: HostValue): (r: PlainValue)
    reads v.Footprint()
    ensures r.OtherValue? <==> v.Rejected()
    ensures v.Plain? ==> r == v.plain
    ensures v.DictBuilderValue? ==> r == MappingValue(v.dict.elements)
  {
    match v
    case Plain(p) => p
    case DictBuilderValue(d) => MappingValue(d.elements)
  }

  /** The builder `_value` returns. */
  datatype Resolved = RString(str: String) | RDict(dict: Dict) | RList(list: List) | RCall(call: Call) {
    function Footprint(): set<Dict> {
      if RDict? then {dict} else {}
    }

    /** The builder's own `to_cst`. */
    function ToCst(): Cst.Expression
      reads Footprint()
    {
      match this
      case RString(s) => s.ToCst()
      case RDict(d) => d.ToCst()
      case RList(l) => l.ToCst()
      case RCall(c) => c.ToCst()
    }
  }

  /** Reads the tree of an accepted value back as a value of the same kind. */
  function ReadPlainValue(n: Cst.Expression): Option<PlainValue> {
    match n
    case SimpleString(_) =>
      (match ReadString(n) case Some(s) => Some(StrValue(s)) case None => None)
    case Dict(_) =>
      (match ReadDict(n) case Some(items) => Some(MappingValue(items)) case None => None)
    case List(_) =>
      (match ReadList(n) case Some(l) => Some(ListValue(l.elements)) case None => None)
    case Call(_, _) =>
      (match ReadCall(n) case Some(c) => Some(CallValue(c)) case None => None)
    case _ => None
  }

  /**
   * The tree `_value(v).to_cst()` gives for a value `v` whose snapshot is
   * `p`: an error exactly for a value of a kind `_value` does not accept.
   */
  function ValueTree(p: PlainValue): (r: Result<Cst.Expression, Error>)
    ensures r.Failure? <==> p.OtherValue?
    ensures p.OtherValue? ==> r.error == UnexpectedValue(p.kind)
  {
    match p
    case StrValue(s) => Success(String(s).ToCst())
    case MappingValue(items) => Success(Cst.Dict(DictElements(items)))
    case ListValue(es) => Success(List(es).ToCst())
    case CallValue(c) => Success(c.ToCst())
    case OtherValue(kind) => Failure(UnexpectedValue(kind))
  }

  /** Every accepted value's tree reads back as that value. */
  lemma ValueTreeRoundTrip(p: PlainValue)
    requires !p.OtherValue?
    ensures ReadPlainValue(ValueTree(p).value) == Some(p)
  {
    match p
    case StrValue(s) => StringRoundTrip(s);
    case MappingValue(items) => DictElementsRoundTrip(items);
    case ListValue(es) => ListRoundTrip(List(es));
    case CallValue(c) => CallRoundTrip(c);
  }

  /**
   * `_value`: a string becomes a `String`, a plain dict a new `Dict` built
   * by `from_dict`, a plain list a `List`; a `Call` or `Dict` builder is
   * returned itself; anything else raises. The returned builder's tree is
   * the tree of the value's snapshot.
   */
  method Resolve(v: HostValue) returns (r: Result<Resolved, Error>)
    ensures v.Plain? && v.plain.StrValue? ==> r == Success(RString(String(v.plain.s)))
    ensures v.Plain? && v.plain.MappingValue? ==>
      r.Success? && r.value.RDict? && fresh(r.value.dict) && r.value.dict.elements == v.plain.items
    ensures v.Plain? && v.plain.ListValue? ==> r == Success(RList(List(v.plain.elements)))
    ensures v.Plain? && v.plain.CallValue? ==> r == Success(RCall(v.plain.call))
    ensures v.DictBuilderValue? ==> r == Success(RDict(v.dict))
    ensures v.Rejected() ==> r == Failure(UnexpectedValue(v.plain.kind))
    ensures r.Success? ==> r.value.ToCst() == ValueTree(old(Snapshot(v))).value
  {
    match v
    case DictBuilderValue(d) => r := Success(RDict(d));
    case Plain(p) =>
      match p
      case StrValue(s) => r := Success(RString(String(s)));
      case MappingValue(items) =>
        var d := Dict.FromDict(items);
        r := Success(RDict(d));
      case ListValue(es) => r := Success(RList(List(es)));
      case CallValue(c) => r := Success(RCall(c));
      case OtherValue(kind) => r := Failure(UnexpectedValue(kind));
  }

  // ---------------------------------------------------------------------
  // ClassDef

  /** The objects the trees of some keyword arguments depend on: the `Dict` builders among them. */
  ghost function KwargsFootprint(kwargs: seq<(string, HostValue)>): set<Dict> {
    set j | 0 <= j < |kwargs| && kwargs[j].1.DictBuilderValue? :: kwargs[j].1.dict
  }

  /** The keyword arguments with every value replaced by its snapshot. */
  function Snapshots(kwargs: seq<(string, HostValue)>): (r: seq<(string, PlainValue)>)
    reads KwargsFootprint(kwargs)
    ensures |r| == |kwargs|
  {
    seq(|kwargs|, j requires 0 <= j < |kwargs| reads KwargsFootprint(kwargs) => (kwargs[j].0, Snapshot(kwargs[j].1)))
  }

  /**
   * How many keyword arguments `ClassDef.field` gets through before
   * `_value` raises: the leading ones of accepted kinds. When some are
   * left, the next one is of a kind `_value` rejects.
   */
  function SupportedPrefix(kwargs: seq<(string, PlainValue)>): (n: nat)
    ensures n <= |kwargs|
    ensures forall j :: 0 <= j < n ==> !kwargs[j].1.OtherValue?
    ensures n < |kwargs| ==> kwargs[n].1.OtherValue?
  {
    SupportedFrom(kwargs, 0)
  }

  /** The end of the run of accepted arguments that starts at `i`. */
  function SupportedFrom(kwargs: seq<(string, PlainValue)>, i: nat): (n: nat)
    requires i <= |kwargs|
    ensures i <= n <= |kwargs|
    ensures forall j :: i <= j < n ==> !kwargs[j].1.OtherValue?
    ensures n < |kwargs| ==> kwargs[n].1.OtherValue?
    decreases |kwargs| - i
  {
    if i == |kwargs| || kwargs[i].1.OtherValue? then i else SupportedFrom(kwargs, i + 1)
  }

  /** The statement `name = value` that `field` stores for one keyword argument. */
  function FieldLine(name: string, value: Cst.Expression): Cst.Statement {
    Cst.SimpleStatementLine([Cst.Assign([Cst.Name(name)], value)])
  }

  /**
   * The statements `field` appends, from the snapshots of its keyword
   * arguments: for each argument up to the first of a kind `_value`
   * rejects, in order, one assignment to `Name(k)` of the tree of the
   * argument's value.
   */
  function FieldLines(kwargs: seq<(string, PlainValue)>): (r: seq<Cst.Statement>)
    ensures |r| == SupportedPrefix(kwargs)
  {
    var n := SupportedPrefix(kwargs);
    seq(n, j requires 0 <= j < n => FieldLine(kwargs[j].0, ValueTree(kwargs[j].1).value))
  }

  /** Reads a statement `name = value` back as the keyword argument it was built from. */
  function ReadFieldLine(s: Cst.Statement): Option<(string, PlainValue)> {
    if s.SimpleStatementLine? && |s.body| == 1 && s.body[0].Assign?
       && |s.body[0].targets| == 1 && s.body[0].targets[0].Name? then
      match ReadPlainValue(s.body[0].rhs)
      case Some(v) => Some((s.body[0].targets[0].id, v))
      case None => None
    else None
  }

  /**
   * Each statement `field` appends reads back as the keyword argument, of
   * the same position, that it was built from: one assignment per accepted
   * argument, in keyword order.
   */
  lemma FieldLinesRoundTrip(kwargs: seq<(string, PlainValue)>)
    ensures forall j :: 0 <= j < |FieldLines(kwargs)| ==> ReadFieldLine(FieldLines(kwargs)[j]) == Some(kwargs[j])
  {
    forall j | 0 <= j < |FieldLines(kwargs)|
      ensures ReadFieldLine(FieldLines(kwargs)[j]) == Some(kwargs[j])
    {
      ValueTreeRoundTrip(kwargs[j].1);
    }
  }

  /** The `Arg(value=Name(b))` list of `ClassDef.to_cst`. */
  function BaseArgs(bases: seq<string>): (r: seq<Cst.Arg>)
    ensures |r| == |bases|
  {
    seq(|bases|, i requires 0 <= i < |bases| => Cst.Arg(Cst.Name(bases[i]), None))
  }

  /** Reads positional arguments that are plain names back as those names. */
  function ReadBases(args: seq<Cst.Arg>): Option<seq<string>> {
    if args == [] then Some([])
    else if args[0].keyword.None? && args[0].value.Name? then
      match ReadBases(args[1..])
      case Some(rest) => Some([args[0].value.id] + rest)
      case None => None
    else None
  }

  lemma {:induction false} BaseArgsRoundTrip(bases: seq<string>)
    ensures ReadBases(BaseArgs(bases)) == Some(bases)
  {
    if bases != [] {
      BaseArgsRoundTrip(bases[1..]);
      assert BaseArgs(bases)[1..] == BaseArgs(bases[1..]);
      assert [bases[0]] + bases[1..] == bases;
    }
  }

  /**
   * One pass of the loop of `ClassDef.field`, for the `i`-th keyword
   * argument, reached when the ones before it were accepted: its value
   * sent through `_value` and converted at once, wrapped in the statement
   * `name = value`, which is the `i`-th of the statements `field` appends;
   * the error of `_value` exactly when the value is of a kind it rejects.
   */
  method FieldStatement(kwargs: seq<(string, HostValue)>, i: nat, ghost snapshots: seq<(string, PlainValue)>)
    returns (r: Result<Cst.Statement, Error>)
    requires i < |kwargs| == |snapshots| && i <= SupportedPrefix(snapshots)
    requires snapshots[i] == (kwargs[i].0, Snapshot(kwargs[i].1))
    ensures r.Failure? <==> i == SupportedPrefix(snapshots)
    ensures r.Failure? ==> r.error == UnexpectedValue(snapshots[i].1.kind)
    ensures r.Success? ==> r.value == FieldLines(snapshots)[i]
  {
    var (name, v) := kwargs[i];
    var resolved := Resolve(v);
    if resolved.Failure? {
      return Failure(resolved.error);
    }
    var valueNode := resolved.value.ToCst();
    r := Success(FieldLine(name, valueNode));
  }

  /** A class definition builder: a name, base class names and field statements, in order. */
  class ClassDef {
    const name: string
    /** The field statements, built when `field` is called. */
    var fields: seq<Cst.Statement>
    var bases: seq<string>

    constructor (name: string)
      ensures this.name == name && fields == [] && bases == []
    {
      this.name := name;
      fields := [];
      bases := [];
    }

    /** `ClassDef.base`: appends one base class name and returns this builder. */
    method Base(className: string) returns (self: ClassDef)
      modifies this
      ensures bases == old(bases) + [className]
      ensures fields == old(fields)
      ensures self == this
    {
      bases := bases + [className];
      self := this;
    }

    /**
     * `ClassDef.field`: appends one assignment per keyword argument, in
     * order, whose value is the tree of the argument's value taken now.
     * The first argument of a kind `_value` rejects raises its error; the
     * arguments before it stay appended.
     */
    method Field(kwargs: seq<(string, HostValue)>) returns (r: Result<ClassDef, Error>)
      modifies this
      ensures bases == old(bases)
      ensures fields == old(fields) + FieldLines(old(Snapshots(kwargs)))
      ensures r.Success? <==> SupportedPrefix(old(Snapshots(kwargs))) == |kwargs|
      ensures r.Success? ==> r.value == this
      ensures r.Failure? ==>
        r.error == UnexpectedValue(old(Snapshots(kwargs))[SupportedPrefix(old(Snapshots(kwargs)))].1.kind)
    {
      ghost var snapshots := Snapshots(kwargs);
      ghost var lines := FieldLines(snapshots);
      var i := 0;
      while i < |kwargs|
        invariant 0 <= i <= SupportedPrefix(snapshots)
        invariant fields == old(fields) + lines[..i]
        invariant bases == old(bases)
        invariant Snapshots(kwargs) == snapshots
      {
        var line := FieldStatement(kwargs, i, snapshots);
        if line.Failure? {
          return Failure(line.error);
        }
        assert lines[..i + 1] == lines[..i] + [lines[i]];
        fields := fields + [line.value];
        i := i + 1;
      }
      r := Success(this);
    }

    /**
     * `ClassDef.to_cst`: the bases as plain names in order and the body as
     * the fields in order.
     */
    function ToCst(): (r: Cst.Statement)
      reads this
      ensures r.ClassDef? && r.className == name && r.block == fields
      ensures |r.bases| == |bases|
      ensures forall i :: 0 <= i < |bases| ==> r.bases[i] == Cst.Arg(Cst.Name(bases[i]), None)
    {
      Cst.ClassDef(name, fields, BaseArgs(bases))
    }
  }

  /**
   * `to_code` on a class builder: the module handed to the renderer holds
   * the class definition alone, with the builder's name, its fields as the
   * body and bases that read back as its base names.
   */
  lemma ClassDefToCode(c: ClassDef)
    ensures var m := ToCodeTree(StatementTree(c.ToCst()));
      |m.body| == 1 && m.body[0].ClassDef? && m.body[0].className == c.name
      && m.body[0].block == c.fields && ReadBases(m.body[0].bases) == Some(c.bases)
  {
    BaseArgsRoundTrip(c.bases);
  }

  // ---------------------------------------------------------------------
  // Module

  /** The statement lines of the requested imports, one per request, in order. */
  function ImportLines(imports: seq<ImportFrom>): (r: seq<Cst.Statement>)
    ensures |r| == |imports|
  {
    seq(|imports|, i requires 0 <= i < |imports| => imports[i].ToCst())
  }

  function ReadImportLines(lines: seq<Cst.Statement>): Option<seq<ImportFrom>> {
    if lines == [] then Some([])
    else match (ReadImportFrom(lines[0]), ReadImportLines(lines[1..]))
      case (Some(i), Some(rest)) => Some([i] + rest)
      case _ => None
  }

  /** The import lines read back as exactly the requests, duplicates included. */
  lemma {:induction false} ImportLinesRoundTrip(imports: seq<ImportFrom>)
    ensures ReadImportLines(ImportLines(imports)) == Some(imports)
  {
    if imports != [] {
      ImportFromRoundTrip(imports[0]);
      ImportLinesRoundTrip(imports[1..]);
      assert ImportLines(imports)[1..] == ImportLines(imports[1..]);
      assert [imports[0]] + imports[1..] == imports;
    }
  }

  /** The trees of the added class builders, in order, from their state now. */
  function ClassDefTrees(classes: seq<ClassDef>): (r: seq<Cst.Statement>)
    reads classes
    ensures |r| == |classes|
  {
    seq(|classes|, i requires 0 <= i < |classes| reads classes => classes[i].ToCst())
  }

  /**
   * A module builder: the statements added and the imports requested, each
   * in order. Imports are a plain list, so a repeated request is kept.
   */
  class Module {
    var statements: seq<ClassDef>
    var imports: seq<ImportFrom>

    constructor ()
      ensures statements == [] && imports == []
    {
      statements := [];
      imports := [];
    }

    /** `Module.add`: appends one class definition builder and returns this builder. */
    method Add(node: ClassDef) returns (self: Module)
      modifies this
      ensures statements == old(statements) + [node]
      ensures imports == old(imports)
      ensures ToCst().body == old(ToCst().body) + [node.ToCst()]
      ensures self == this
    {
      statements := statements + [node];
      self := this;
    }

    /** `Module.require_import`: appends `from <fromPath> import <objName>` and returns this builder. */
    method RequireImport(objName: string, fromPath: string) returns (self: Module)
      modifies this
      ensures imports == old(imports) + [ImportFrom(fromPath, objName)]
      ensures statements == old(statements)
      ensures ToCst().body == old(ToCst().body[..|imports|]) + [ImportFrom(fromPath, objName).ToCst()]
                              + old(ToCst().body[|imports|..])
      ensures self == this
    {
      ghost var trees := ClassDefTrees(statements);
      ghost var lines := ImportLines(imports);
      assert old(ToCst().body) == lines + trees;
      imports := imports + [ImportFrom(fromPath, objName)];
      assert ClassDefTrees(statements) == trees;
      assert ImportLines(imports) == lines + [ImportFrom(fromPath, objName).ToCst()];
      self := this;
    }

    /**
     * `Module.to_cst`: every requested import in request order, then every
     * added class in order, built from the classes' state now.
     */
    function ToCst(): (r: Cst.Module)
      reads this, statements
      ensures |r.body| == |imports| + |statements|
      ensures forall i :: 0 <= i < |imports| ==> r.body[i] == imports[i].ToCst()
      ensures forall j :: 0 <= j < |statements| ==> r.body[|imports| + j] == statements[j].ToCst()
    {
      Cst.Module(ImportLines(imports) + ClassDefTrees(statements))
    }
  }

  /** The leading lines of a module's tree read back as exactly its requested imports. */
  lemma ModuleImportsRoundTrip(m: Module)
    ensures ReadImportLines(m.ToCst().body[..|m.imports|]) == Some(m.imports)
  {
    ImportLinesRoundTrip(m.imports);
    assert m.ToCst().body[..|m.imports|] == ImportLines(m.imports);
  }
}
