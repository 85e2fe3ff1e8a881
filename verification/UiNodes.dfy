/** Authored UI trees: nodes, slots, bind lists and conditional children, and how a node's identity is
    realized in a row. Reading the entity store, evaluating predicates and deriving descendant ids are
    parameters; everything proved holds whatever they answer. */
module UiNodes {
  import opened Wrappers
  import opened Strings

  datatype Value =
    | Undefined | Null | Bool(b: bool) | Number(n: int) | Str(s: string)
    | List(items: seq<Value>) | Object(fields: map<string, Value>)

  type Record = map<string, Value>

  /** A row with the identity a bind list bound to it, if any. */
  datatype Row = Row(fields: Record, bound: Option<string>)

  /** An authored identity: absent, a string, a descendant key of a bind list, or a row binding. A key or
      path that is not a string is None. */
  datatype Id = NoId | Literal(text: string) | DescendantId(key: Option<string>) | RowBinding(path: Option<string>)

  /** Leaf stands for every supported primitive without children: text, badges, metric, button, iframe and
      the core controls but select. */
  datatype Kind =
    | Stack | FormSection | Inline | MetricGrid | Form | Section | Panel | Toolbar | EmptyState | ItemList
    | ListItem | Select | Dialog | Table | FormField | SelectOption | Leaf | Unknown

  /** A list of records in the props: an expression still to be read, or its value. */
  datatype Records = Bound(path: string) | Frozen(records: seq<Record>)

  datatype Slot = Slot(name: string, children: seq<Child>)

  /** `records` is the items of a list or the rows of a table, `emptyState` a table's authored empty state,
      `control` the node a form field makes of its schema. */
  datatype Node = Node(
    kind: Kind,
    id: Id,
    requires_: seq<string>,
    records: Records,
    children: seq<Child>,
    slots: seq<Slot>,
    emptyState: Option<Node>,
    control: Option<Node>)

  datatype Child =
    | Plain(node: Node)
    | BindList(source: string, item: Node, empty: Option<Node>)
    | BindIf(path: string, node: Node)
    | PresentationIf(predicate_: string, node: Node)
    | Conditional(hidden: bool, width: string, pointer: string, node: Node)

  datatype Env = Env(
    capabilities: set<string>,
    entityRows: (string, Option<Row>) -> seq<Record>,
    records: (string, Option<Row>) -> seq<Record>,
    value: (string, Option<Row>) -> Value,
    truthy: (string, Option<Row>) -> bool,
    presented: string -> bool,
    descend: (string, string) -> string)

  // ---------------------------------------------------------------------------
  // Size, for termination.
  // ---------------------------------------------------------------------------

  function Size(node: Node): nat {
    1 + ChildrenSize(node.children) + SlotsSize(node.slots)
    + (if node.emptyState.Some? then Size(node.emptyState.value) else 0)
    + (if node.control.Some? then Size(node.control.value) else 0)
  }

  function ChildSize(child: Child): nat {
    match child
    case Plain(node) => 1 + Size(node)
    case BindList(_, item, empty) => 1 + Size(item) + if empty.Some? then Size(empty.value) else 0
    case BindIf(_, node) => 1 + Size(node)
    case PresentationIf(_, node) => 1 + Size(node)
    case Conditional(_, _, _, node) => 1 + Size(node)
  }

  function ChildrenSize(children: seq<Child>): nat {
    if children == [] then 0 else 1 + ChildSize(children[0]) + ChildrenSize(children[1..])
  }

  function SlotsSize(slots: seq<Slot>): nat {
    if slots == [] then 0 else 1 + ChildrenSize(slots[0].children) + SlotsSize(slots[1..])
  }

  // ---------------------------------------------------------------------------
  // Reading a node.
  // ---------------------------------------------------------------------------

  function FindSlot(slots: seq<Slot>, name: string): (children: seq<Child>)
    ensures children == [] || ChildrenSize(children) < SlotsSize(slots)
  {
    if slots == [] then [] else if slots[0].name == name then slots[0].children else FindSlot(slots[1..], name)
  }

  function ReadSlot(node: Node, name: string): (children: seq<Child>)
    ensures ChildrenSize(children) < Size(node)
  {
    FindSlot(node.slots, name)
  }

  predicate HasSlot(node: Node, name: string) { ReadSlot(node, name) != [] }

  lemma {:induction false} ChildrenConcat(a: seq<Child>, b: seq<Child>)
    ensures ChildrenSize(a + b) == ChildrenSize(a) + ChildrenSize(b)
  {
    if a == [] {
      assert a + b == b;
    } else {
      assert (a + b)[1..] == a[1..] + b;
      ChildrenConcat(a[1..], b);
    }
  }

  function ReadChildren(node: Node): (children: seq<Child>)
    ensures ChildrenSize(children) < Size(node)
  {
    ChildrenConcat(node.children, ReadSlot(node, "children"));
    node.children + ReadSlot(node, "children")
  }

  predicate Supported(env: Env, node: Node) {
    node.kind != Unknown && forall k :: 0 <= k < |node.requires_| ==> node.requires_[k] in env.capabilities
  }

  function RecordsOf(env: Env, records: Records, row: Option<Row>): seq<Record> {
    match records
    case Bound(path) => env.records(path, row)
    case Frozen(values) => values
  }

  // ---------------------------------------------------------------------------
  // Identity.
  // ---------------------------------------------------------------------------

  /** Walks a dotted path; a missing step or a step into something that is no record is undefined. */
  function ReadPath(value: Value, parts: seq<string>): Value
    decreases |parts|
  {
    if parts == [] then value
    else if parts[0] == "" then ReadPath(value, parts[1..])
    else ReadPath(if value.Object? && parts[0] in value.fields then value.fields[parts[0]] else Undefined, parts[1..])
  }

  /** A realized identity, a rejection that is an issue, or a row without one. */
  datatype Realization = Realized(id: Option<string>) | Rejected | Missing

  /** The text a row binding reads: only a path into the row, and only text that is not blank. */
  function RowIdentity(path: Option<string>, row: Option<Row>): Option<string> {
    if path.None? || row.None? || |path.value| < 2 || path.value[..2] != "@/" then None
    else
      var value := ReadPath(Object(row.value.fields), Split(path.value[2..], '.'));
      if value.Str? && !Blank(value.s) then Some(value.s) else None
  }

  function Realize(env: Env, id: Id, row: Option<Row>, allowRowBinding: bool): Realization {
    match id
    case NoId => Realized(None)
    case Literal(text) => Realized(Some(text))
    case DescendantId(key) =>
      if key.None? || Blank(key.value) then Rejected
      else if row.None? || row.value.bound.None? || row.value.bound.value == "" then Rejected
      else Realized(Some(env.descend(row.value.bound.value, key.value)))
    case RowBinding(path) =>
      if !allowRowBinding then Rejected
      else
        var text := RowIdentity(path, row);
        if text.Some? then Realized(text) else Missing
  }

  datatype Resolved = Resolved(node: Node, id: Option<string>, row: Option<Row>)

  /** One node in the same row. */
  function ResolveHere(env: Env, node: Node, row: Option<Row>): (resolved: seq<Resolved>)
    ensures forall k :: 0 <= k < |resolved| ==> resolved[k].node == node
  {
    var realization := Realize(env, node.id, row, false);
    if realization.Realized? then [Resolved(node, realization.id, row)] else []
  }

  /** A width or pointer that is not stated matches; this renderer is a regular one with a fine pointer. */
  predicate Matches(width: string, pointer: string) {
    (width == "" || width == "regular") && (pointer == "" || pointer == "fine")
  }

  /** The item template in each row. A row-bound template identity becomes the identity of its row. */
  function ResolveRows(env: Env, item: Node, records: seq<Record>): (resolved: seq<Resolved>)
    ensures forall k :: 0 <= k < |resolved| ==> resolved[k].node == item
  {
    if records == [] then []
    else
      var plain := Row(records[0], None);
      var realization := Realize(env, item.id, Some(plain), true);
      (if !realization.Realized? then []
       else [Resolved(item, realization.id, Some(if item.id.RowBinding? then plain.(bound := realization.id) else plain))])
      + ResolveRows(env, item, records[1..])
  }

  function ResolveChild(env: Env, child: Child, row: Option<Row>): (resolved: seq<Resolved>)
    ensures forall k :: 0 <= k < |resolved| ==> Size(resolved[k].node) < ChildSize(child)
  {
    match child
    case Plain(node) => ResolveHere(env, node, row)
    case BindList(source, item, empty) =>
      var records := env.entityRows(source, row);
      if records == [] then (if empty.Some? then ResolveHere(env, empty.value, row) else [])
      else ResolveRows(env, item, records)
    case BindIf(path, node) => if env.truthy(path, row) then ResolveHere(env, node, row) else []
    case PresentationIf(predicate_, node) => if env.presented(predicate_) then ResolveHere(env, node, row) else []
    case Conditional(hidden, width, pointer, node) =>
      if Matches(width, pointer) != hidden then ResolveHere(env, node, row) else []
  }

  /** The identities rejected while resolving a child: the issues it adds. */
  function RejectedHere(env: Env, node: Node, row: Option<Row>): seq<Id> {
    if Realize(env, node.id, row, false).Rejected? then [node.id] else []
  }

  function RejectedRows(env: Env, item: Node, records: seq<Record>): seq<Id> {
    if records == [] then []
    else
      (if Realize(env, item.id, Some(Row(records[0], None)), true).Rejected? then [item.id] else [])
      + RejectedRows(env, item, records[1..])
  }

  function RejectedIn(env: Env, child: Child, row: Option<Row>): seq<Id> {
    match child
    case Plain(node) => RejectedHere(env, node, row)
    case BindList(source, item, empty) =>
      var records := env.entityRows(source, row);
      if records == [] then (if empty.Some? then RejectedHere(env, empty.value, row) else [])
      else RejectedRows(env, item, records)
    case BindIf(path, node) => if env.truthy(path, row) then RejectedHere(env, node, row) else []
    case PresentationIf(predicate_, node) => if env.presented(predicate_) then RejectedHere(env, node, row) else []
    case Conditional(hidden, width, pointer, node) =>
      if Matches(width, pointer) != hidden then RejectedHere(env, node, row) else []
  }

  // ---------------------------------------------------------------------------
  // Props are resolved before they are read: an authored empty state loses its bindings.
  // ---------------------------------------------------------------------------

  function TextAt(fields: Record, name: string): Option<string> {
    if name in fields && fields[name].Str? then Some(fields[name].s) else None
  }

  /** A value read as an authored identity. */
  function IdOf(value: Value): Id {
    match value
    case Undefined => NoId
    case Str(text) => Literal(text)
    case Object(fields) =>
      if TextAt(fields, "$kind") == Some("bind_list_descendant_id") then DescendantId(TextAt(fields, "key"))
      else RowBinding(TextAt(fields, "$bind"))
    case _ => RowBinding(None)
  }

  /** A binding in resolved props is replaced by what it reads, in the row of the props. */
  function ResolveId(env: Env, id: Id, row: Option<Row>): Id {
    if id.RowBinding? && id.path.Some? then IdOf(env.value(id.path.value, row)) else id
  }

  function ResolveNode(env: Env, node: Node, row: Option<Row>): Node {
    node.(id := ResolveId(env, node.id, row),
          records := Frozen(RecordsOf(env, node.records, row)),
          children := ResolveAll(env, node.children, row),
          slots := ResolveSlots(env, node.slots, row),
          emptyState := if node.emptyState.Some? then Some(ResolveNode(env, node.emptyState.value, row)) else None,
          control := if node.control.Some? then Some(ResolveNode(env, node.control.value, row)) else None)
  }

  function ResolveInChild(env: Env, child: Child, row: Option<Row>): Child {
    match child
    case Plain(node) => Plain(ResolveNode(env, node, row))
    case BindList(source, item, empty) =>
      BindList(source, ResolveNode(env, item, row), if empty.Some? then Some(ResolveNode(env, empty.value, row)) else None)
    case BindIf(path, node) => BindIf(path, ResolveNode(env, node, row))
    case PresentationIf(predicate_, node) => PresentationIf(predicate_, ResolveNode(env, node, row))
    case Conditional(hidden, width, pointer, node) => Conditional(hidden, width, pointer, ResolveNode(env, node, row))
  }

  function ResolveAll(env: Env, children: seq<Child>, row: Option<Row>): seq<Child> {
    if children == [] then [] else [ResolveInChild(env, children[0], row)] + ResolveAll(env, children[1..], row)
  }

  function ResolveSlots(env: Env, slots: seq<Slot>, row: Option<Row>): seq<Slot> {
    if slots == [] then []
    else [Slot(slots[0].name, ResolveAll(env, slots[0].children, row))] + ResolveSlots(env, slots[1..], row)
  }

  lemma {:induction false} ResolveNodeSize(env: Env, node: Node, row: Option<Row>)
    ensures Size(ResolveNode(env, node, row)) == Size(node)
  {
    ResolveAllSize(env, node.children, row);
    ResolveSlotsSize(env, node.slots, row);
    if node.emptyState.Some? { ResolveNodeSize(env, node.emptyState.value, row); }
    if node.control.Some? { ResolveNodeSize(env, node.control.value, row); }
  }

  lemma {:induction false} ResolveChildSize(env: Env, child: Child, row: Option<Row>)
    ensures ChildSize(ResolveInChild(env, child, row)) == ChildSize(child)
  {
    match child {
      case BindList(_, item, empty) =>
        ResolveNodeSize(env, item, row);
        if empty.Some? { ResolveNodeSize(env, empty.value, row); }
      case _ => ResolveNodeSize(env, child.node, row);
    }
  }

  lemma {:induction false} ResolveAllSize(env: Env, children: seq<Child>, row: Option<Row>)
    ensures ChildrenSize(ResolveAll(env, children, row)) == ChildrenSize(children)
  {
    if children != [] {
      ResolveChildSize(env, children[0], row);
      ResolveAllSize(env, children[1..], row);
    }
  }

  lemma {:induction false} ResolveSlotsSize(env: Env, slots: seq<Slot>, row: Option<Row>)
    ensures SlotsSize(ResolveSlots(env, slots, row)) == SlotsSize(slots)
  {
    if slots != [] {
      ResolveAllSize(env, slots[0].children, row);
      ResolveSlotsSize(env, slots[1..], row);
    }
  }
}
