# fluentcst builders in Dafny

This project models `fluentcst`, a small fluent-builder library that turns
builder objects into libcst syntax trees: string literals, dotted attribute
chains, list, dict and call literals, union annotations, class definitions
with field assignments, `from ... import ...` lines and whole modules.

The libcst node classes are replaced by the datatypes of module `Cst`
(`cst.dfy`). The model stops at the tree; rendering it to text is done by
libcst, which is not part of this model.

Layout:

- `wrappers.dfy`: `Option` and `Result`.
- `cst.dfy`: the syntax-tree subset the builders emit, split the way libcst
  types it (expressions, annotation, small statements, statements, module).
  It also holds two readers: a `Name`/`Attribute` chain read back as its
  segments, and a `|` chain read back as its operands.
- `paths.dfy`: Python's `str.split(".")`, `".".join(...)` and the `"." in s`
  test, with the lemmas that relate them.
- `expressions.dfy`: the builders that have no chainable methods, as
  datatypes. These are `String`, `Attribute`, `List`, `Call` and
  `ImportFrom`, with `_name_or_attr`, `_bin_or` and the statement-line rule
  of `FluentCstNode.to_code`. Every conversion to a tree has a reader that
  gets the builder back, and a round-trip lemma.
- `builders.dfy`: the builders whose list fields grow through chainable
  methods, as classes with `seq` fields. These are `Dict`, `Annotation`,
  `ClassDef` and `Module`, plus the value dispatcher `_value`.

Each chainable method appends to one field and returns the object itself.
Its `ensures` gives the whole new state. Each `to_cst` is a function that
reads the current state.

Behaviour that can raise is modelled as a `Result`:

- The `assert` of `Attribute.__init__` becomes `NewAttribute`, which returns
  `InvalidPath` for a path with no dot.
- The `raise` of `_value` becomes `UnexpectedValue`, which carries the name
  of the rejected value's type.

`ClassDef.field` raises at the first keyword argument that `_value` rejects,
after the earlier arguments have already been appended. The model does the
same.

What the code does and does not do:

- Module imports are a plain list. A repeated `require_import` gives a
  repeated import line; nothing is deduplicated.
- `String.to_cst` puts the value between double quotes verbatim. A quote or
  backslash inside the value is not escaped.
- `Call` takes keyword arguments only. Their values are strings, and the
  callee is `Name(name)` as given, dots included; dotted names are not
  resolved into attribute chains.
- `_value` accepts strings, plain dicts, plain lists, `Call` builders and
  `Dict` builders. Integers, booleans and every other value raise.
- `ClassDef` bases are plain names. A field is always an assignment; there
  are no type-only fields. A class with no fields gets no placeholder
  statement.
- There are no subscripts in attribute paths, no raw nodes and no
  positional call arguments.

## Model

| member | source | states |
|---|---|---|
| Expressions.ListToCode | fluentcst/__init__.py:14-20 | `to_code` on a `List` builder hands the renderer a module with one statement line. That line's only statement is the list as an expression, which reads back as the builder. |
| Expressions.ImportFromToCode | fluentcst/__init__.py:14-20 | `to_code` on an `ImportFrom` builder hands the renderer a module holding the import line alone, which reads back as the builder. |
| Builders.ClassDefToCode | fluentcst/__init__.py:14-20 | `to_code` on a `ClassDef` builder hands the renderer a module holding the class definition alone. It has the builder's name and its fields as the body, and its bases read back as the base names. |
| Expressions.String.ToCst | fluentcst/__init__.py:37-38 | The result is a `SimpleString` whose text is `"` + value + `"`, verbatim, with no escaping. |
| Expressions.StringRoundTrip | fluentcst/__init__.py:37-38 | Stripping the two quotes from the literal gives back exactly the original string. |
| Expressions.NewAttribute | fluentcst/__init__.py:47-49 | The constructor succeeds if and only if the path contains a `.`, keeping the path as given. Otherwise it fails with `InvalidPath(path)`. |
| Expressions.Attribute.ToCst | fluentcst/__init__.py:51-57 | The result is an `Attribute` node. Read innermost first, its `Name`/`Attribute` chain gives exactly `path.split(".")`. |
| Expressions.Attribute.ToCstByPopping | fluentcst/__init__.py:51-57 | Splitting the path, popping the last segment and folding the rest by popping gives the same tree as the pure fold. |
| Expressions.NameOrAttr | fluentcst/__init__.py:59-67 | The chain reads back as exactly the given segments. It is a bare `Name` if and only if there is one segment. |
| Expressions.NameOrAttrByPopping | fluentcst/__init__.py:59-67 | Popping segments off the shared list gives the same tree as the pure fold over its original contents, and leaves the list empty. |
| Expressions.PartList.constructor | fluentcst/__init__.py:52 | The list holds the segments it was created with. |
| Expressions.PartList.Pop | fluentcst/__init__.py:53 | `pop()` returns the last segment and leaves all segments before it. |
| Expressions.AttributeRoundTrip | fluentcst/__init__.py:47-57 | The chain of an accepted path reads back, joined with `.`, as exactly that path. |
| Expressions.List.ToCst | fluentcst/__init__.py:74-79 | There is exactly one element per input, in order. A string becomes its string literal and a `Call` becomes its own tree. |
| Expressions.ListItemsRoundTrip | fluentcst/__init__.py:75-78 | The elements read back as exactly the inputs, in order. |
| Expressions.ListRoundTrip | fluentcst/__init__.py:74-79 | A list literal reads back as the builder it was built from. |
| Expressions.BinOr | fluentcst/__init__.py:125-133 | One type gives `Name(args[0])`. More types give a right-nested `BitOr` chain with `Name(args[0])` on the left. The left operands, read in order, are exactly the types, and the chain has one `BitOr` fewer than there are types. |
| Expressions.Call.ToCst | fluentcst/__init__.py:141-146 | The callee is exactly `Name(name)`. There is one keyword `Arg` per kwarg, in kwarg order, whose value is the string literal of the kwarg's value. |
| Expressions.KeywordArgsRoundTrip | fluentcst/__init__.py:142-145 | The keyword arguments read back as exactly the (keyword, value) pairs, in order. |
| Expressions.CallRoundTrip | fluentcst/__init__.py:141-146 | A call's tree reads back as its builder. |
| Expressions.ImportFrom.ToCst | fluentcst/__init__.py:216-225 | The result is one statement line holding one `ImportFrom` of the symbol. The module is the `Attribute` chain of the path when the path contains `.`, and `Name(path)` otherwise. Either way the module reads back as the segments of the path. |
| Expressions.ImportFromRoundTrip | fluentcst/__init__.py:216-225 | An import line reads back as the (path, symbol) it was built from. |
| Paths.Split | fluentcst/__init__.py:52 | `split(".")` always gives at least one piece. |
| Paths.SplitCount | fluentcst/__init__.py:48 | A path splits into two or more pieces if and only if it contains a `.`. |
| Paths.JoinSplit | fluentcst/__init__.py:52 | Joining the pieces of a split with `.` gives back the string. |
| Paths.SplitDotFree | fluentcst/__init__.py:52 | No piece of a split contains a `.`. |
| Paths.SplitJoin | fluentcst/__init__.py:52 | Splitting a join of dot-free pieces gives back the pieces. |
| Paths.SplitPiece | fluentcst/__init__.py:217-218 | A path without a `.` splits into itself alone, so a plain `Name(path)` module reads back as its one segment. |
| Builders.StrOrAttr | fluentcst/__init__.py:104-109 | A string value becomes a string literal and an `Attribute` value becomes an attribute chain. |
| Builders.DictValueRoundTrip | fluentcst/__init__.py:104-109 | An element's value tree reads back as that value. |
| Builders.Dict.constructor | fluentcst/__init__.py:90-91 | A new dict builder holds no pairs. |
| Builders.Dict.FromDict | fluentcst/__init__.py:83-88 | Returns a new builder whose pairs are exactly the mapping's items, in iteration order. |
| Builders.Dict.Element | fluentcst/__init__.py:93-95 | Appends one pair at the end, keeps every earlier pair (an equal key included) and returns the builder itself. The tree gains exactly one element, at its end. |
| Builders.Dict.ToCst | fluentcst/__init__.py:97-102 | The result is a `Dict` node with one element per pair. The i-th key is the string literal of the i-th key. |
| Builders.DictElementsRoundTrip | fluentcst/__init__.py:98-101 | The elements read back as exactly the pairs, in order, duplicate keys included. |
| Builders.DictRoundTrip | fluentcst/__init__.py:97-102 | A dict literal reads back as exactly the builder's pairs. |
| Builders.Annotation.constructor | fluentcst/__init__.py:113-115 | A new annotation holds exactly the seed type, so the type list is never empty. |
| Builders.Annotation.Or | fluentcst/__init__.py:117-119 | Appends one type, keeps the list non-empty and returns the builder itself. |
| Builders.Annotation.ToCst | fluentcst/__init__.py:121-122 | The annotation's `|` operands read back as exactly the types, in order, joined by one `|` fewer than there are types. |
| Builders.Snapshot | fluentcst/__init__.py:260-263 | Only a value of an unaccepted kind is classified as rejected. A plain value stands for itself, and a `Dict` builder stands for the pairs it holds now. |
| Builders.ValueTree | fluentcst/__init__.py:252-263 | The conversion fails exactly for a value of an unaccepted kind, with `UnexpectedValue` of that kind. |
| Builders.ValueTreeRoundTrip | fluentcst/__init__.py:252-263 | The tree of every accepted value reads back as a value of the same kind with the same contents. |
| Builders.Resolve | fluentcst/__init__.py:252-263 | The dispatch is as follows. A string gives a `String` builder. A plain dict gives a new `Dict` holding its items in order. A list gives a `List` builder. A `Call` or `Dict` builder is returned itself. Anything else raises `UnexpectedValue`. The returned builder's tree is the tree of the value as it was at the call. |
| Builders.SupportedPrefix | fluentcst/__init__.py:164-165 | Gives how far the loop gets: every argument before that point is of an accepted kind, and the argument at that point, if any, is rejected. |
| Builders.FieldLines | fluentcst/__init__.py:164-174 | There is one statement per argument the loop gets through. |
| Builders.FieldLinesRoundTrip | fluentcst/__init__.py:164-174 | The j-th appended statement is `Name(k) = tree`, and it reads back as exactly the j-th keyword argument. |
| Builders.FieldStatement | fluentcst/__init__.py:165-173 | One pass of the loop: it fails with `_value`'s error exactly at the first rejected argument. Otherwise the result is the j-th statement of `FieldLines`. |
| Builders.ClassDef.constructor | fluentcst/__init__.py:152-155 | A new class builder has the given name, no fields and no bases. |
| Builders.ClassDef.Base | fluentcst/__init__.py:157-159 | Appends one base name, leaves the fields alone and returns the builder itself. |
| Builders.ClassDef.Field | fluentcst/__init__.py:161-176 | Appends the statements of `FieldLines`, in keyword order, built from the values as they were at the call, and leaves the bases alone. It succeeds, returning the builder, if and only if every argument is accepted. Otherwise it raises the first rejected argument's error, and the statements of the earlier arguments stay appended. |
| Builders.ClassDef.ToCst | fluentcst/__init__.py:178-184 | The result is a `ClassDef` with the builder's name and the fields as its body, in order. The bases are positional `Arg(Name(b))`, in order. |
| Builders.BaseArgsRoundTrip | fluentcst/__init__.py:179 | The base arguments read back as exactly the base names, in order. |
| Builders.ImportLinesRoundTrip | fluentcst/__init__.py:202 | The import lines read back as exactly the requests, in order, duplicates included. |
| Builders.Module.constructor | fluentcst/__init__.py:189-191 | A new module builder has no statements and no imports. |
| Builders.Module.Add | fluentcst/__init__.py:193-195 | Appends one class builder, leaves the imports alone and returns the builder itself. The tree gains that class's tree at its end. |
| Builders.Module.RequireImport | fluentcst/__init__.py:197-199 | Appends `ImportFrom(from_, obj_name)` even if it is already there and returns the builder itself. The tree gains its import line after the earlier imports and before every class. |
| Builders.Module.ToCst | fluentcst/__init__.py:201-204 | The body has length \|imports\| + \|statements\|. It holds every import line in request order, then every added class's current tree in `add` order. |
| Builders.ModuleImportsRoundTrip | fluentcst/__init__.py:201-204 | The leading lines of the module read back as exactly its requested imports. |

## Left out

- Rendering a tree to text (`.code` at fluentcst/__init__.py:20 and 207) belongs to libcst. `Module.to_code` is therefore out, and `to_code` is modelled up to the module it renders (`ToCodeTree`).
- `ToCodeTree` covers builders whose `to_cst` gives a statement or a `List`, which is what `to_cst` is declared to return. `to_code` on a `String`, `Call`, `Dict`, `Attribute` or `Annotation` builder puts an expression straight into a module body. What libcst then does is not modelled.
- Validation done by libcst's node constructors is not modelled. For example, an empty `Name` from a path such as `"a..b"` or a class named `""` raises in libcst but is a plain value here.
- The `@overload` stubs of `_value` (lines 228-249) are type-checker hints with no behaviour.
- The empty `Assign` class (lines 27-28) has no behaviour.
- The abstract `FluentCstNode.to_cst` that raises (lines 23-24) is out; every builder defines its own `to_cst`.
- Duck typing is narrowed to the declared types. A `List` element is a string or a `Call`, a `Dict` value is a string or an `Attribute`, and `Module.add` takes a `ClassDef`. Another object with a `to_cst` method is not modelled.
- Builders.Resolve: a rejected value is identified by the name of its type only. The exception text, which also contains the value's `repr`, is not modelled.
- Expressions.NewAttribute: the check is modelled as always on. Python's `-O` switch, which removes `assert`, is not modelled.
- Builders.ClassDef.Field: Python's keyword arguments have distinct names. The model takes any sequence of (name, value) pairs, so repeated names are also allowed.
- Builders.Dict.FromDict: a mapping is taken as its items in iteration order. The distinctness of a `dict`'s keys is not required.
- Object identity of the builder returned by `_value` is modelled only for the `Dict` builder (`RDict`). `String`, `List` and `Call` builders are values here, so their identity is not observable.
- Expressions.List.ToCst: `List.__init__` keeps the caller's list object (line 72), so appending to that list later changes what `to_cst` gives. Here a `List` builder holds the elements as a value, fixed when the builder is made. Within the library this makes no difference, because `_value` converts at once.
- Builders.ClassDef.ToCst: `to_cst` hands the builder's own `_fields` list to the `IndentedBlock` (line 182), so a tree taken before a later `field` call gains the new lines. Here the tree holds the fields as they were when it was built. Within the library this makes no difference, because `Module.to_cst` converts at once.
