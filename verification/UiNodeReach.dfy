/** Which nodes a page has, told without walking it: a path names a part a node shows, a child there and a row of
    that child; following it leads to a node in a row, to an identity that cannot be realized, or nowhere. The check
    notes exactly one mark for every path that leads somewhere. */
module UiNodeReach {
  import opened Wrappers
  import opened Strings
  import opened UiNodes
  import opened UiNodeIdentity

  // ---------------------------------------------------------------------------
  // Paths.
  // ---------------------------------------------------------------------------

  /** The children of a node, a named slot, the item slot in the row of one record, or a table's empty state. */
  datatype Part = AtChildren | AtSlot(name: string) | AtRecord(record: nat) | AtEmpty

  /** One turn: a part, a child in it, and for a bind list the record of its row. */
  datatype Turn = Turn(part: Part, child: nat, record: nat)

  type Path = seq<Turn>

  /** The parts a node of each kind shows. */
  predicate Shows(env: Env, node: Node, row: Option<Row>, part: Part) {
    match node.kind
    case Section => part == AtChildren || (part.AtSlot? && RegionName(node, part.name))
    case Panel => part == AtChildren || (part.AtSlot? && RegionName(node, part.name))
    case Toolbar => part == AtChildren || (part.AtSlot? && part.name in {"commands", "filters", "search", "actions"})
    case ListItem => part == AtChildren || (part.AtSlot? && part.name in {"title", "subtitle", "meta", "actions"})
    case Dialog => part == AtChildren || part == AtSlot("body")
    case EmptyState => part == AtSlot("actions")
    case Select => part == AtSlot("options")
    case ItemList =>
      if RecordsOf(env, node.records, row) != [] then part.AtRecord? && part.record < |RecordsOf(env, node.records, row)|
      else if ReadChildren(node) != [] then part == AtChildren
      else part == AtSlot("empty")
    case Table => part == AtEmpty && RecordsOf(env, node.records, row) == [] && node.emptyState.Some?
    case FormField => false
    case SelectOption => false
    case Leaf => false
    case Unknown => false
    case _ => part == AtChildren
  }

  /** A section or panel shows its empty slot only when it has neither body nor children. */
  predicate RegionName(node: Node, name: string) {
    || name in {"header", "toolbar", "body", "footer", "actions"}
    || (name == "empty" && ReadSlot(node, "body") == [] && ReadChildren(node) == [])
  }

  function ChildrenOf(node: Node, part: Part): seq<Child> {
    match part
    case AtChildren => ReadChildren(node)
    case AtSlot(name) => ReadSlot(node, name)
    case AtRecord(_) => ReadSlot(node, "item")
    case AtEmpty => []
  }

  function RowOf(env: Env, node: Node, row: Option<Row>, part: Part): Option<Row> {
    if part.AtRecord? && part.record < |RecordsOf(env, node.records, row)|
    then Some(Row(RecordsOf(env, node.records, row)[part.record], None)) else row
  }

  /** Where a turn leads. */
  datatype Spot = Spot(node: Node, id: Option<string>, row: Option<Row>) | Refused(source: Id) | Nowhere

  function Here(env: Env, node: Node, row: Option<Row>): Spot {
    match Realize(env, node.id, row, false)
    case Realized(id) => Spot(node, id, row)
    case Rejected => Refused(node.id)
    case Missing => Nowhere
  }

  /** The template of a bind list in the row of one record, bound to the identity the record gives it. */
  function InRecord(env: Env, item: Node, record: Record): Spot {
    match Realize(env, item.id, Some(Row(record, None)), true)
    case Realized(id) => Spot(item, id, Some(Row(record, if item.id.RowBinding? then id else None)))
    case Rejected => Refused(item.id)
    case Missing => Nowhere
  }

  function Place(env: Env, child: Child, row: Option<Row>, record: nat): Spot {
    match child
    case BindList(source, item, empty) =>
      var records := env.entityRows(source, row);
      if record < |records| then InRecord(env, item, records[record])
      else if records == [] && record == 0 && empty.Some? then Here(env, empty.value, row)
      else Nowhere
    case _ => if record == 0 && Stands(env, child, row) then Here(env, child.node, row) else Nowhere
  }

  /** The condition of a child that is no bind list. */
  predicate Stands(env: Env, child: Child, row: Option<Row>) {
    match child
    case Plain(_) => true
    case BindList(_, _, _) => false
    case BindIf(path, _) => env.truthy(path, row)
    case PresentationIf(predicate_, _) => env.presented(predicate_)
    case Conditional(hidden, width, pointer, _) => Matches(width, pointer) != hidden
  }

  /** The mark at the end of a path from a spot. */
  function MarkFrom(env: Env, spot: Spot, path: Path): Option<Mark>
    decreases |path|, 1
  {
    match spot
    case Spot(node, id, row) => MarkAt(env, node, id, row, path)
    case Refused(source) => if path == [] then Some(Issue(source)) else None
    case Nowhere => None
  }

  /** The mark at the end of a path from a node in a row. */
  function MarkAt(env: Env, node: Node, id: Option<string>, row: Option<Row>, path: Path): Option<Mark>
    decreases |path|, 0
  {
    if path == [] then (if id.Some? && id.value != "" then Some(Mark(id.value, node.id)) else None)
    else if Supported(env, node) && Shows(env, node, row, path[0].part) then MarkFrom(env, Turned(env, node, row, path[0]), path[1..])
    else None
  }

  /** One turn from a node. */
  function Turned(env: Env, node: Node, row: Option<Row>, turn: Turn): Spot {
    if turn.part.AtEmpty? then
      (if node.emptyState.Some? && turn.child == 0 && turn.record == 0
       then Here(env, ResolveNode(env, node.emptyState.value, row), row) else Nowhere)
    else if turn.child < |ChildrenOf(node, turn.part)|
    then Place(env, ChildrenOf(node, turn.part)[turn.child], RowOf(env, node, row, turn.part), turn.record)
    else Nowhere
  }

  // ---------------------------------------------------------------------------
  // What the words of the paths mean.
  // ---------------------------------------------------------------------------

  /** The first slot of a node under this name. */
  predicate FirstSlot(node: Node, k: nat, name: string) {
    k < |node.slots| && node.slots[k].name == name && forall j :: 0 <= j < k ==> node.slots[j].name != name
  }

  lemma {:induction false} SlotFound(slots: seq<Slot>, name: string, k: nat)
    requires k < |slots| && slots[k].name == name && forall j :: 0 <= j < k ==> slots[j].name != name
    ensures FindSlot(slots, name) == slots[k].children
    decreases |slots|
  {
    if k > 0 {
      assert slots[1..][k - 1] == slots[k] && forall j :: 0 <= j < k - 1 ==> slots[1..][j] == slots[j + 1];
      SlotFound(slots[1..], name, k - 1);
    }
  }

  lemma {:induction false} SlotMissing(slots: seq<Slot>, name: string)
    requires forall j :: 0 <= j < |slots| ==> slots[j].name != name
    ensures FindSlot(slots, name) == []
    decreases |slots|
  {
    if slots != [] {
      assert forall j :: 0 <= j < |slots[1..]| ==> slots[1..][j] == slots[j + 1];
      SlotMissing(slots[1..], name);
    }
  }

  /** A slot is the first one under its name; the children are the node's own, then those of its slot `children`. */
  lemma PartsRead(node: Node, name: string, k: nat)
    ensures FirstSlot(node, k, name) ==> ChildrenOf(node, AtSlot(name)) == node.slots[k].children
    ensures (forall j :: 0 <= j < |node.slots| ==> node.slots[j].name != name) ==> ChildrenOf(node, AtSlot(name)) == []
    ensures FirstSlot(node, k, "children") ==> ChildrenOf(node, AtChildren) == node.children + node.slots[k].children
    ensures (forall j :: 0 <= j < |node.slots| ==> node.slots[j].name != "children") ==> ChildrenOf(node, AtChildren) == node.children
    ensures FirstSlot(node, k, "item") ==> forall r: nat :: ChildrenOf(node, AtRecord(r)) == node.slots[k].children
  {
    if FirstSlot(node, k, name) { SlotFound(node.slots, name, k); }
    if forall j :: 0 <= j < |node.slots| ==> node.slots[j].name != name { SlotMissing(node.slots, name); }
    if FirstSlot(node, k, "children") { SlotFound(node.slots, "children", k); }
    if forall j :: 0 <= j < |node.slots| ==> node.slots[j].name != "children" { SlotMissing(node.slots, "children"); }
    if FirstSlot(node, k, "item") { SlotFound(node.slots, "item", k); }
  }

  /** A node of an unknown kind, or one that asks for a capability that is missing, leads no further. */
  lemma UnsupportedEnds(env: Env, node: Node, id: Option<string>, row: Option<Row>, path: Path)
    requires path != []
    requires node.kind.Unknown? || exists k :: 0 <= k < |node.requires_| && node.requires_[k] !in env.capabilities
    ensures MarkAt(env, node, id, row, path).None?
  {
  }

  /** A child whose condition fails leads nowhere: a false predicate, or a width or pointer that is stated and is
      not a regular one and a fine one. */
  lemma FailedConditions(env: Env, child: Child, row: Option<Row>, record: nat)
    ensures child.BindIf? && !env.truthy(child.path, row) ==> Place(env, child, row, record).Nowhere?
    ensures child.PresentationIf? && !env.presented(child.predicate_) ==> Place(env, child, row, record).Nowhere?
    ensures child.Conditional? && (child.hidden <==> child.width in {"", "regular"} && child.pointer in {"", "fine"}) ==>
      Place(env, child, row, record).Nowhere?
  {
  }

  /** What an identity comes to in a row. */
  lemma IdentitiesRead(env: Env, node: Node, row: Option<Row>)
    ensures node.id.NoId? ==> Here(env, node, row) == Spot(node, None, row)
    ensures node.id.Literal? ==> Here(env, node, row) == Spot(node, Some(node.id.text), row)
    ensures node.id.RowBinding? ==> Here(env, node, row) == Refused(node.id)
    ensures node.id.DescendantId? ==>
      Here(env, node, row) ==
        if node.id.key.Some? && !Blank(node.id.key.value) && row.Some? && row.value.bound.Some? && row.value.bound.value != ""
        then Spot(node, Some(env.descend(row.value.bound.value, node.id.key.value)), row) else Refused(node.id)
  {
  }

  /** The root of a template is refused in its rows exactly when it is a descendant; a row binding takes the text of
      its row, or leads nowhere. */
  lemma RootsRead(env: Env, item: Node, record: Record)
    ensures InRecord(env, item, record).Refused? <==> item.id.DescendantId?
    ensures item.id.RowBinding? ==>
      var text := RowIdentity(item.id.path, Some(Row(record, None)));
      InRecord(env, item, record) == if text.Some? then Spot(item, text, Some(Row(record, text))) else Nowhere
  {
  }

  /** An empty state is resolved before it is walked: a binding with a path becomes what it reads. */
  lemma ResolvedIdentity(env: Env, node: Node, row: Option<Row>)
    ensures ResolveNode(env, node, row).id ==
      if node.id.RowBinding? && node.id.path.Some? then IdOf(env.value(node.id.path.value, row)) else node.id
    ensures IdOf(Undefined) == NoId && forall s :: IdOf(Str(s)) == Literal(s)
  {
  }

  // ---------------------------------------------------------------------------
  // Listing what paths lead to.
  // ---------------------------------------------------------------------------

  type Reading = Path -> Option<Mark>

  /** These paths are different from each other, they are all that lead somewhere, and these are their marks. */
  ghost predicate Lists(marks: seq<Mark>, paths: seq<Path>, at: Reading) {
    && |paths| == |marks|
    && (forall k :: 0 <= k < |paths| ==> at(paths[k]) == Some(marks[k]))
    && (forall j, k :: 0 <= j < k < |paths| ==> paths[j] != paths[k])
    && (forall path :: at(path).Some? ==> path in paths)
  }

  ghost predicate Listed(marks: seq<Mark>, at: Reading) { exists paths :: Lists(marks, paths, at) }

  lemma ListNothing(at: Reading)
    requires forall path :: at(path).None?
    ensures Listed([], at)
  {
    assert Lists([], [], at);
  }

  lemma ListOne(mark: Mark, at: Reading, path: Path)
    requires at(path) == Some(mark) && forall other :: other != path ==> at(other).None?
    ensures Listed([mark], at)
  {
    assert Lists([mark], [path], at);
  }

  /** Two readings that never both lead somewhere. */
  lemma ListJoin(a: seq<Mark>, left: Reading, b: seq<Mark>, right: Reading, at: Reading)
    requires Listed(a, left) && Listed(b, right)
    requires forall path :: at(path) == if left(path).Some? then left(path) else right(path)
    requires forall path :: left(path).None? || right(path).None?
    ensures Listed(a + b, at)
  {
    var p :| Lists(a, p, left);
    var q :| Lists(b, q, right);
    JoinMarks(a, left, b, right, at, p, q);
    JoinApart(a, left, b, right, p, q);
    forall path | at(path).Some? ensures path in p + q {
      if left(path).Some? { assert path in p; } else { assert path in q; }
    }
    assert Lists(a + b, p + q, at);
  }

  lemma JoinMarks(a: seq<Mark>, left: Reading, b: seq<Mark>, right: Reading, at: Reading, p: seq<Path>, q: seq<Path>)
    requires Lists(a, p, left) && Lists(b, q, right)
    requires forall path :: at(path) == if left(path).Some? then left(path) else right(path)
    requires forall path :: left(path).None? || right(path).None?
    ensures forall k :: 0 <= k < |p + q| ==> at((p + q)[k]) == Some((a + b)[k])
  {
    forall k | 0 <= k < |p + q| ensures at((p + q)[k]) == Some((a + b)[k]) {
      if k < |p| {
        assert (p + q)[k] == p[k] && (a + b)[k] == a[k] && left(p[k]) == Some(a[k]);
      } else {
        assert (p + q)[k] == q[k - |p|] && (a + b)[k] == b[k - |p|] && right(q[k - |p|]) == Some(b[k - |p|]);
      }
    }
  }

  lemma JoinApart(a: seq<Mark>, left: Reading, b: seq<Mark>, right: Reading, p: seq<Path>, q: seq<Path>)
    requires Lists(a, p, left) && Lists(b, q, right)
    requires forall path :: left(path).None? || right(path).None?
    ensures forall j, k :: 0 <= j < k < |p + q| ==> (p + q)[j] != (p + q)[k]
  {
    forall j, k | 0 <= j < k < |p + q| ensures (p + q)[j] != (p + q)[k] {
      if k < |p| {
        assert p[j] != p[k];
      } else if j < |p| {
        assert left(p[j]) == Some(a[j]) && right(q[k - |p|]) == Some(b[k - |p|]);
      } else {
        assert q[j - |p|] != q[k - |p|];
      }
    }
  }

  /** The same marks one turn further. */
  lemma ListUnder(marks: seq<Mark>, inner: Reading, turn: Turn, at: Reading)
    requires Listed(marks, inner)
    requires forall path :: at(path) == if path != [] && path[0] == turn then inner(path[1..]) else None
    ensures Listed(marks, at)
  {
    var p :| Lists(marks, p, inner);
    UnderMarks(marks, p, inner, turn, at);
    UnderApart(marks, p, inner, turn);
    UnderAll(marks, p, inner, turn, at);
    assert Lists(marks, Prefixed(turn, p), at);
  }

  function Prefixed(turn: Turn, paths: seq<Path>): (prefixed: seq<Path>)
    ensures |prefixed| == |paths|
    ensures forall k :: 0 <= k < |paths| ==> prefixed[k] == [turn] + paths[k]
  {
    seq(|paths|, k requires 0 <= k < |paths| => [turn] + paths[k])
  }

  lemma Prefix(turn: Turn, path: Path)
    ensures var longer := [turn] + path; longer != [] && longer[0] == turn && longer[1..] == path
    ensures path != [] ==> [path[0]] + path[1..] == path
  {
  }

  lemma UnderMarks(marks: seq<Mark>, p: seq<Path>, inner: Reading, turn: Turn, at: Reading)
    requires Lists(marks, p, inner)
    requires forall path :: at(path) == if path != [] && path[0] == turn then inner(path[1..]) else None
    ensures forall k :: 0 <= k < |p| ==> at(Prefixed(turn, p)[k]) == Some(marks[k])
  {
    hide Prefixed;
    forall k | 0 <= k < |p| ensures at(Prefixed(turn, p)[k]) == Some(marks[k]) {
      Prefix(turn, p[k]);
      assert inner(p[k]) == Some(marks[k]);
    }
  }

  lemma UnderApart(marks: seq<Mark>, p: seq<Path>, inner: Reading, turn: Turn)
    requires Lists(marks, p, inner)
    ensures forall j, k :: 0 <= j < k < |p| ==> Prefixed(turn, p)[j] != Prefixed(turn, p)[k]
  {
    hide Prefixed;
    forall j, k | 0 <= j < k < |p| ensures Prefixed(turn, p)[j] != Prefixed(turn, p)[k] {
      Prefix(turn, p[j]);
      Prefix(turn, p[k]);
      assert p[j] != p[k];
    }
  }

  lemma UnderAll(marks: seq<Mark>, p: seq<Path>, inner: Reading, turn: Turn, at: Reading)
    requires Lists(marks, p, inner)
    requires forall path :: at(path) == if path != [] && path[0] == turn then inner(path[1..]) else None
    ensures forall path :: at(path).Some? ==> path in Prefixed(turn, p)
  {
    hide Prefixed;
    forall path | at(path).Some? ensures path in Prefixed(turn, p) {
      assert inner(path[1..]).Some?;
      var k :| 0 <= k < |p| && p[k] == path[1..];
      Prefix(turn, path);
      assert Prefixed(turn, p)[k] == path;
    }
  }

  lemma ListSame(marks: seq<Mark>, one: Reading, other: Reading)
    requires Listed(marks, one) && forall path :: one(path) == other(path)
    ensures Listed(marks, other)
  {
    var p :| Lists(marks, p, one);
    assert Lists(marks, p, other);
  }

  // ---------------------------------------------------------------------------
  // The check walks along every path once.
  // ---------------------------------------------------------------------------

  function FromNode(env: Env, node: Node, id: Option<string>, row: Option<Row>): Reading { (path: Path) => MarkAt(env, node, id, row, path) }

  function FromSpot(env: Env, spot: Spot): Reading { (path: Path) => MarkFrom(env, spot, path) }

  /** Paths that start with this turn. */
  function Under(turn: Turn, inner: Reading): Reading {
    (path: Path) => if path != [] && path[0] == turn then inner(path[1..]) else None
  }

  predicate Into(path: Path, part: Part, child: nat) { path != [] && path[0].part == part && path[0].child == child }

  /** Paths into one child of a part. */
  function FromChild(env: Env, child: Child, row: Option<Row>, part: Part, c: nat): Reading {
    (path: Path) => if Into(path, part, c) then MarkFrom(env, Place(env, child, row, path[0].record), path[1..]) else None
  }

  /** Paths into the children of a part, counted from c on. */
  function FromChildren(env: Env, children: seq<Child>, row: Option<Row>, part: Part, c: nat): Reading {
    (path: Path) => if path != [] && path[0].part == part && c <= path[0].child < c + |children|
            then MarkFrom(env, Place(env, children[path[0].child - c], row, path[0].record), path[1..]) else None
  }

  /** Paths into the rows of a bind list, counted from n on, that lead to a node, or that are refused. */
  function FromRows(env: Env, item: Node, records: seq<Record>, part: Part, c: nat, n: nat, refused: bool): Reading {
    (path: Path) => if Into(path, part, c) && n <= path[0].record < n + |records|
               && InRecord(env, item, records[path[0].record - n]).Refused? == refused
            then MarkFrom(env, InRecord(env, item, records[path[0].record - n]), path[1..]) else None
  }

  /** Paths into one part of a node. */
  function FromPart(env: Env, node: Node, row: Option<Row>, part: Part): Reading {
    (path: Path) => if path != [] && path[0].part == part then MarkFrom(env, Turned(env, node, row, path[0]), path[1..]) else None
  }

  lemma IssuesMore(a: seq<Id>, b: seq<Id>)
    ensures IssuesOf(a + b) == IssuesOf(a) + IssuesOf(b) && IssuesOf([]) == []
  {
  }

  lemma IssueAlone(id: Id)
    ensures IssuesOf([id]) == [Issue(id)]
  {
  }

  lemma RefusedListed(env: Env, source: Id)
    ensures Listed([Issue(source)], FromSpot(env, Refused(source)))
  {
    ListOne(Issue(source), FromSpot(env, Refused(source)), []);
  }

  lemma NowhereListed(env: Env)
    ensures Listed([], FromSpot(env, Nowhere))
  {
    ListNothing(FromSpot(env, Nowhere));
  }

  /** One more row of the kind that is read. */
  lemma RowJoins(env: Env, item: Node, records: seq<Record>, part: Part, c: nat, n: nat, refused: bool, first: seq<Mark>, rest: seq<Mark>)
    requires records != [] && InRecord(env, item, records[0]).Refused? == refused
    requires Listed(first, FromSpot(env, InRecord(env, item, records[0])))
    requires Listed(rest, FromRows(env, item, records[1..], part, c, n + 1, refused))
    ensures Listed(first + rest, FromRows(env, item, records, part, c, n, refused))
  {
    hide InRecord, MarkFrom, Listed;
    var spot, turn := InRecord(env, item, records[0]), Turn(part, c, n);
    ListUnder(first, FromSpot(env, spot), turn, Under(turn, FromSpot(env, spot)));
    RowsSplit(env, item, records, part, c, n, refused);
    ListJoin(first, Under(turn, FromSpot(env, spot)), rest, FromRows(env, item, records[1..], part, c, n + 1, refused),
             FromRows(env, item, records, part, c, n, refused));
  }

  /** Paths into the first row, and into the later ones. */
  lemma RowsSplit(env: Env, item: Node, records: seq<Record>, part: Part, c: nat, n: nat, refused: bool)
    requires records != [] && InRecord(env, item, records[0]).Refused? == refused
    ensures var first := Under(Turn(part, c, n), FromSpot(env, InRecord(env, item, records[0])));
      var rest := FromRows(env, item, records[1..], part, c, n + 1, refused);
      && (forall path :: FromRows(env, item, records, part, c, n, refused)(path) == if first(path).Some? then first(path) else rest(path))
      && (forall path :: first(path).None? || rest(path).None?)
  {
    hide InRecord, MarkFrom;
    var at := FromRows(env, item, records, part, c, n, refused);
    var first := Under(Turn(part, c, n), FromSpot(env, InRecord(env, item, records[0])));
    var rest := FromRows(env, item, records[1..], part, c, n + 1, refused);
    forall path: Path
      ensures at(path) == (if first(path).Some? then first(path) else rest(path)) && (first(path).None? || rest(path).None?)
    {
      if Into(path, part, c) && path[0].record == n {
        assert path[0] == Turn(part, c, n);
      } else if Into(path, part, c) && path[0].record > n && path[0].record < n + |records| {
        assert records[path[0].record - n] == records[1..][path[0].record - (n + 1)];
      }
    }
  }

  lemma OtherRows(env: Env, item: Node, records: seq<Record>, part: Part, c: nat, n: nat, refused: bool, rest: seq<Mark>)
    requires records != [] && InRecord(env, item, records[0]).Refused? != refused
    requires Listed(rest, FromRows(env, item, records[1..], part, c, n + 1, refused))
    ensures Listed(rest, FromRows(env, item, records, part, c, n, refused))
  {
    hide InRecord, MarkFrom, Listed;
    var at, later := FromRows(env, item, records, part, c, n, refused), FromRows(env, item, records[1..], part, c, n + 1, refused);
    forall path: Path ensures at(path) == later(path) {
      if Into(path, part, c) && n < path[0].record < n + |records| {
        assert records[path[0].record - n] == records[1..][path[0].record - (n + 1)];
      }
    }
    ListSame(rest, later, at);
  }

  /** The bind-list rows that are refused. */
  lemma {:induction false} RefusedRows(env: Env, item: Node, records: seq<Record>, part: Part, c: nat, n: nat)
    ensures Listed(IssuesOf(RejectedRows(env, item, records)), FromRows(env, item, records, part, c, n, true))
    decreases |records|
  {
    hide InRecord, FromRows, Listed;
    IssuesMore([], []);
    if records == [] {
      NoRows(env, item, part, c, n, 0);
    } else {
      var rest := RejectedRows(env, item, records[1..]);
      RefusedRows(env, item, records[1..], part, c, n + 1);
      RowsMore(env, item, records);
      if InRecord(env, item, records[0]).Refused? {
        RefusedListed(env, item.id);
        IssueAlone(item.id);
        IssuesMore([item.id], rest);
        RowJoins(env, item, records, part, c, n, true, [Issue(item.id)], IssuesOf(rest));
      } else {
        assert [] + rest == rest;
        OtherRows(env, item, records, part, c, n, true, IssuesOf(rest));
      }
    }
  }

  /** The next row as the check resolves it. */
  lemma RowsMore(env: Env, item: Node, records: seq<Record>)
    requires records != []
    ensures var first, rest := InRecord(env, item, records[0]), ResolveRows(env, item, records[1..]);
      ResolveRows(env, item, records) == if first.Spot? then [Resolved(item, first.id, first.row)] + rest else rest
    ensures InRecord(env, item, records[0]).Spot? ==> InRecord(env, item, records[0]).node == item
    ensures InRecord(env, item, records[0]).Refused? ==> InRecord(env, item, records[0]) == Refused(item.id)
    ensures RejectedRows(env, item, records)
         == (if InRecord(env, item, records[0]).Refused? then [item.id] else []) + RejectedRows(env, item, records[1..])
  {
    hide Realize;
  }

  /** The bind-list rows that lead to a node. */
  lemma {:induction false} RealizedRows(env: Env, item: Node, records: seq<Record>, part: Part, c: nat, n: nat, bound: nat)
    requires Size(item) < bound
    ensures Listed(WalkResolved(Check, env, ResolveRows(env, item, records), bound), FromRows(env, item, records, part, c, n, false))
    decreases bound, 1, |records|
  {
    hide WalkNode, WalkResolved, ResolveRows, InRecord, FromRows, FromNode, Listed;
    if records == [] {
      NoRows(env, item, part, c, n, bound);
    } else {
      var first := InRecord(env, item, records[0]);
      RealizedRows(env, item, records[1..], part, c, n + 1, bound);
      if first.Spot? { NodeReached(env, item, first.id, first.row); }
      RealizedMore(env, item, records, part, c, n, bound);
    }
  }

  lemma RealizedMore(env: Env, item: Node, records: seq<Record>, part: Part, c: nat, n: nat, bound: nat)
    requires Size(item) < bound && records != []
    requires var first := InRecord(env, item, records[0]);
      first.Spot? ==> Listed(WalkNode(Check, env, item, first.id, first.row), FromNode(env, item, first.id, first.row))
    requires Listed(WalkResolved(Check, env, ResolveRows(env, item, records[1..]), bound),
                    FromRows(env, item, records[1..], part, c, n + 1, false))
    ensures Listed(WalkResolved(Check, env, ResolveRows(env, item, records), bound), FromRows(env, item, records, part, c, n, false))
  {
    hide WalkNode, WalkResolved, InRecord, FromRows, FromNode, FromSpot, Listed;
    var first, rest := InRecord(env, item, records[0]), ResolveRows(env, item, records[1..]);
    var walked := WalkResolved(Check, env, rest, bound);
    RowsMore(env, item, records);
    if first.Spot? {
      var marks := WalkNode(Check, env, item, first.id, first.row);
      SpotListed(env, first, marks);
      RowJoins(env, item, records, part, c, n, false, marks, walked);
      FirstResolved(env, Resolved(item, first.id, first.row), rest, bound);
    } else if first.Refused? {
      OtherRows(env, item, records, part, c, n, false, walked);
    } else {
      NowhereListed(env);
      RowJoins(env, item, records, part, c, n, false, [], walked);
      assert [] + walked == walked;
    }
  }

  lemma NoRows(env: Env, item: Node, part: Part, c: nat, n: nat, bound: nat)
    ensures ResolveRows(env, item, []) == [] && WalkResolved(Check, env, [], bound) == []
    ensures RejectedRows(env, item, []) == []
    ensures forall refused :: Listed([], FromRows(env, item, [], part, c, n, refused))
  {
    ListNothing(FromRows(env, item, [], part, c, n, false));
    ListNothing(FromRows(env, item, [], part, c, n, true));
  }

  lemma SpotListed(env: Env, spot: Spot, marks: seq<Mark>)
    requires spot.Spot? && Listed(marks, FromNode(env, spot.node, spot.id, spot.row))
    ensures Listed(marks, FromSpot(env, spot))
  {
    ListSame(marks, FromNode(env, spot.node, spot.id, spot.row), FromSpot(env, spot));
  }

  lemma FirstResolved(env: Env, first: Resolved, rest: seq<Resolved>, bound: nat)
    requires Size(first.node) < bound && forall k :: 0 <= k < |rest| ==> Size(rest[k].node) < bound
    ensures WalkResolved(Check, env, [first] + rest, bound)
         == WalkNode(Check, env, first.node, first.id, first.row) + WalkResolved(Check, env, rest, bound)
  {
    hide WalkNode;
    assert ([first] + rest)[1..] == rest;
  }

  lemma AloneResolved(env: Env, first: Resolved, bound: nat)
    requires Size(first.node) < bound
    ensures WalkResolved(Check, env, [first], bound) == WalkNode(Check, env, first.node, first.id, first.row)
  {
    hide WalkNode;
    FirstResolved(env, first, [], bound);
    assert [first] + [] == [first];
    assert WalkNode(Check, env, first.node, first.id, first.row) + [] == WalkNode(Check, env, first.node, first.id, first.row);
  }

  /** One node in the same row. */
  lemma {:induction false} HereReached(env: Env, node: Node, row: Option<Row>, bound: nat)
    requires Size(node) < bound
    ensures Listed(IssuesOf(RejectedHere(env, node, row)) + WalkResolved(Check, env, ResolveHere(env, node, row), bound),
                   FromSpot(env, Here(env, node, row)))
    decreases bound, 1, 0
  {
    hide WalkNode, Realize;
    IssuesMore([], []);
    var spot := Here(env, node, row);
    match spot {
      case Nowhere => NowhereListed(env);
      case Refused(_) =>
        RefusedListed(env, node.id);
        IssueAlone(node.id);
        assert [Issue(node.id)] + [] == [Issue(node.id)];
      case Spot(_, id, _) =>
        NodeReached(env, node, id, row);
        var marks := WalkNode(Check, env, node, id, row);
        SpotListed(env, spot, marks);
        AloneResolved(env, Resolved(node, id, row), bound);
        assert ResolveHere(env, node, row) == [Resolved(node, id, row)] && RejectedHere(env, node, row) == [];
        assert [] + marks == marks;
    }
  }

  /** One child of a part: itself, or the rows of a bind list. */
  lemma {:induction false} ChildReached(env: Env, child: Child, row: Option<Row>, part: Part, c: nat)
    ensures Listed(IssuesOf(RejectedIn(env, child, row)) + WalkResolved(Check, env, ResolveChild(env, child, row), ChildSize(child)),
                   FromChild(env, child, row, part, c))
    decreases ChildSize(child), 2, 0
  {
    hide WalkNode, Realize, WalkResolved;
    var at, turn := FromChild(env, child, row, part, c), Turn(part, c, 0);
    var marks := IssuesOf(RejectedIn(env, child, row)) + WalkResolved(Check, env, ResolveChild(env, child, row), ChildSize(child));
    if child.BindList? && env.entityRows(child.source, row) != [] {
      RowsReached(env, child, row, part, c);
    } else if child.BindList? && child.empty.Some? {
      HereReached(env, child.empty.value, row, ChildSize(child));
      ListUnder(marks, FromSpot(env, Here(env, child.empty.value, row)), turn, at);
    } else if Stands(env, child, row) {
      InChildSize(child);
      HereReached(env, child.node, row, ChildSize(child));
      ListUnder(marks, FromSpot(env, Here(env, child.node, row)), turn, at);
    } else {
      NothingResolved(env, child);
      assert ResolveChild(env, child, row) == [] && RejectedIn(env, child, row) == [];
      assert marks == [];
      ListNothing(at);
    }
  }

  lemma InChildSize(child: Child)
    requires !child.BindList?
    ensures Size(child.node) < ChildSize(child)
  {
  }

  lemma NothingResolved(env: Env, child: Child)
    ensures WalkResolved(Check, env, [], ChildSize(child)) == [] && IssuesOf([]) == []
  {
  }

  lemma {:induction false} RowsReached(env: Env, child: Child, row: Option<Row>, part: Part, c: nat)
    requires child.BindList? && env.entityRows(child.source, row) != []
    ensures Listed(IssuesOf(RejectedIn(env, child, row)) + WalkResolved(Check, env, ResolveChild(env, child, row), ChildSize(child)),
                   FromChild(env, child, row, part, c))
    decreases ChildSize(child), 1, |env.entityRows(child.source, row)| + 1
  {
    hide WalkNode, Realize, WalkResolved, InRecord;
    var records := env.entityRows(child.source, row);
    var refused, realized := FromRows(env, child.item, records, part, c, 0, true), FromRows(env, child.item, records, part, c, 0, false);
    RefusedRows(env, child.item, records, part, c, 0);
    RealizedRows(env, child.item, records, part, c, 0, ChildSize(child));
    ListJoin(IssuesOf(RejectedIn(env, child, row)), refused,
             WalkResolved(Check, env, ResolveChild(env, child, row), ChildSize(child)), realized, FromChild(env, child, row, part, c));
  }

  lemma {:induction false} ChildrenReached(env: Env, children: seq<Child>, row: Option<Row>, part: Part, c: nat)
    ensures Listed(WalkChildren(Check, env, children, row), FromChildren(env, children, row, part, c))
    decreases ChildrenSize(children), 2, 0
  {
    hide WalkResolved, FromChildren, FromChild, Listed;
    if children == [] {
      NoChildrenListed(env, row, part, c);
    } else {
      ChildReached(env, children[0], row, part, c);
      ChildrenReached(env, children[1..], row, part, c + 1);
      ChildrenJoin(env, children, row, part, c,
                   IssuesOf(RejectedIn(env, children[0], row)) + WalkResolved(Check, env, ResolveChild(env, children[0], row), ChildSize(children[0])),
                   WalkChildren(Check, env, children[1..], row));
    }
  }

  lemma NoChildrenListed(env: Env, row: Option<Row>, part: Part, c: nat)
    ensures WalkChildren(Check, env, [], row) == [] && Listed([], FromChildren(env, [], row, part, c))
  {
    ListNothing(FromChildren(env, [], row, part, c));
  }

  lemma ChildrenJoin(env: Env, children: seq<Child>, row: Option<Row>, part: Part, c: nat, first: seq<Mark>, rest: seq<Mark>)
    requires children != [] && Listed(first, FromChild(env, children[0], row, part, c))
    requires Listed(rest, FromChildren(env, children[1..], row, part, c + 1))
    ensures Listed(first + rest, FromChildren(env, children, row, part, c))
  {
    hide Place, MarkFrom, Listed;
    var at, one, more := FromChildren(env, children, row, part, c), FromChild(env, children[0], row, part, c),
                         FromChildren(env, children[1..], row, part, c + 1);
    forall path: Path
      ensures at(path) == (if one(path).Some? then one(path) else more(path)) && (one(path).None? || more(path).None?)
    {
      if path != [] && path[0].part == part && c < path[0].child < c + |children| {
        assert children[path[0].child - c] == children[1..][path[0].child - (c + 1)];
      }
    }
    ListJoin(first, one, rest, more, at);
  }

  /** The marks of one part, in its row. */
  function PartMarks(env: Env, node: Node, row: Option<Row>, part: Part): seq<Mark>
    decreases Size(node), 1, 0
  {
    if part.AtEmpty? then WalkEmptyState(Check, env, node, row)
    else WalkChildren(Check, env, ChildrenOf(node, part), RowOf(env, node, row, part))
  }

  lemma {:induction false} PartReached(env: Env, node: Node, row: Option<Row>, part: Part)
    requires part.AtEmpty? ==> Shows(env, node, row, part)
    ensures Listed(PartMarks(env, node, row, part), FromPart(env, node, row, part))
    decreases Size(node), 1, 0
  {
    hide WalkChildren, WalkResolved, Place;
    if part.AtEmpty? {
      EmptyReached(env, node, row);
    } else {
      ChildrenReached(env, ChildrenOf(node, part), RowOf(env, node, row, part), part, 0);
      ListSame(PartMarks(env, node, row, part), FromChildren(env, ChildrenOf(node, part), RowOf(env, node, row, part), part, 0),
               FromPart(env, node, row, part));
    }
  }

  lemma {:induction false} EmptyReached(env: Env, node: Node, row: Option<Row>)
    requires Shows(env, node, row, AtEmpty)
    ensures Listed(WalkEmptyState(Check, env, node, row), FromPart(env, node, row, AtEmpty))
    decreases Size(node), 0, 0
  {
    hide WalkNode, Realize, ResolveNode;
    var shown := ResolveNode(env, node.emptyState.value, row);
    var spot, turn := Here(env, shown, row), Turn(AtEmpty, 0, 0);
    var marks := WalkEmptyState(Check, env, node, row);
    ResolveNodeSize(env, node.emptyState.value, row);
    match spot {
      case Nowhere => NowhereListed(env); IssuesMore([], []);
      case Refused(_) => RefusedListed(env, shown.id); IssueAlone(shown.id);
      case Spot(_, id, _) =>
        NodeReached(env, shown, id, row);
        SpotListed(env, spot, WalkNode(Check, env, shown, id, row));
    }
    ListUnder(marks, FromSpot(env, spot), turn, FromPart(env, node, row, AtEmpty));
  }

  /** The marks of several parts, one after the other. */
  function PartsMarks(env: Env, node: Node, row: Option<Row>, parts: seq<Part>): seq<Mark> {
    if parts == [] then []
    else PartsMarks(env, node, row, parts[..|parts| - 1]) + PartMarks(env, node, row, parts[|parts| - 1])
  }

  function FromParts(env: Env, node: Node, row: Option<Row>, parts: seq<Part>): Reading {
    (path: Path) => if path != [] && path[0].part in parts then MarkFrom(env, Turned(env, node, row, path[0]), path[1..]) else None
  }

  ghost predicate Different(parts: seq<Part>) { forall j, k :: 0 <= j < k < |parts| ==> parts[j] != parts[k] }

  lemma {:induction false} PartsReached(env: Env, node: Node, row: Option<Row>, parts: seq<Part>)
    requires Different(parts) && forall part :: part in parts ==> Shows(env, node, row, part)
    ensures Listed(PartsMarks(env, node, row, parts), FromParts(env, node, row, parts))
    decreases Size(node), 2, |parts|
  {
    hide PartMarks, Turned, Shows;
    var at := FromParts(env, node, row, parts);
    if parts == [] {
      ListNothing(at);
    } else {
      var front, last := parts[..|parts| - 1], parts[|parts| - 1];
      PartsReached(env, node, row, front);
      PartReached(env, node, row, last);
      assert parts == front + [last];
      ListJoin(PartsMarks(env, node, row, front), FromParts(env, node, row, front),
               PartMarks(env, node, row, last), FromPart(env, node, row, last), at);
    }
  }

  /** The parts a node shows, in the order the check visits them. */
  function PartsOf(env: Env, node: Node, row: Option<Row>): seq<Part> {
    match node.kind
    case Section => RegionParts(node)
    case Panel => RegionParts(node)
    case Toolbar => [AtSlot("commands"), AtSlot("filters"), AtSlot("search"), AtSlot("actions"), AtChildren]
    case ListItem => [AtSlot("title"), AtSlot("subtitle"), AtSlot("meta"), AtSlot("actions"), AtChildren]
    case Dialog => [AtSlot("body"), AtChildren]
    case EmptyState => [AtSlot("actions")]
    case Select => [AtSlot("options")]
    case ItemList =>
      if RecordsOf(env, node.records, row) != [] then seq(|RecordsOf(env, node.records, row)|, r requires r >= 0 => AtRecord(r))
      else if ReadChildren(node) != [] then [AtChildren]
      else [AtSlot("empty")]
    case Table => if RecordsOf(env, node.records, row) == [] && node.emptyState.Some? then [AtEmpty] else []
    case FormField => []
    case SelectOption => []
    case Leaf => []
    case Unknown => []
    case _ => [AtChildren]
  }

  function RegionParts(node: Node): seq<Part> {
    [AtSlot("header"), AtSlot("toolbar"), AtSlot("body"), AtChildren]
    + (if ReadSlot(node, "body") == [] && ReadChildren(node) == [] then [AtSlot("empty")] else [])
    + [AtSlot("footer"), AtSlot("actions")]
  }

  lemma PartsAreShown(env: Env, node: Node, row: Option<Row>)
    ensures Different(PartsOf(env, node, row))
    ensures forall part :: part in PartsOf(env, node, row) <==> Shows(env, node, row, part)
  {
    hide RecordsOf, ReadChildren, ReadSlot;
    if node.kind.ItemList? { RecordParts(env, node, row); }
  }

  lemma RecordParts(env: Env, node: Node, row: Option<Row>)
    requires node.kind.ItemList?
    ensures Different(PartsOf(env, node, row))
    ensures forall part :: part in PartsOf(env, node, row) <==> Shows(env, node, row, part)
  {
    hide RecordsOf, ReadChildren, ReadSlot;
    var parts := PartsOf(env, node, row);
    forall part | Shows(env, node, row, part) ensures part in parts {
      if part.AtRecord? { assert parts[part.record] == part; }
    }
  }

  lemma {:induction false} NodeReached(env: Env, node: Node, id: Option<string>, row: Option<Row>)
    ensures Listed(WalkNode(Check, env, node, id, row), FromNode(env, node, id, row))
    decreases Size(node), 3, 0
  {
    hide Inside, PartsOf, FromParts;
    var own := Own(node, id);
    OwnReached(env, node, id, row);
    if Supported(env, node) {
      PartsAreShown(env, node, row);
      PartsReached(env, node, row, PartsOf(env, node, row));
      InsideIsParts(env, node, row);
      NodeJoins(env, node, id, row);
    }
  }

  function AtNode(node: Node, id: Option<string>): Reading {
    (path: Path) => if path == [] && id.Some? && id.value != "" then Some(Mark(id.value, node.id)) else None
  }

  lemma OwnReached(env: Env, node: Node, id: Option<string>, row: Option<Row>)
    ensures Listed(Own(node, id), AtNode(node, id))
    ensures !Supported(env, node) ==> Listed(Own(node, id), FromNode(env, node, id, row))
  {
    if id.Some? && id.value != "" {
      ListOne(Mark(id.value, node.id), AtNode(node, id), []);
    } else {
      ListNothing(AtNode(node, id));
    }
    if !Supported(env, node) { ListSame(Own(node, id), AtNode(node, id), FromNode(env, node, id, row)); }
  }

  lemma NodeJoins(env: Env, node: Node, id: Option<string>, row: Option<Row>)
    requires Supported(env, node)
    requires Listed(Inside(Check, env, node, row), FromParts(env, node, row, PartsOf(env, node, row)))
    ensures Listed(Own(node, id) + Inside(Check, env, node, row), FromNode(env, node, id, row))
  {
    hide Inside, PartsOf, Turned, Shows;
    OwnReached(env, node, id, row);
    PartsAreShown(env, node, row);
    ListJoin(Own(node, id), AtNode(node, id), Inside(Check, env, node, row), FromParts(env, node, row, PartsOf(env, node, row)),
             FromNode(env, node, id, row));
  }

  lemma PartsMore(env: Env, node: Node, row: Option<Row>, parts: seq<Part>, part: Part)
    ensures PartsMarks(env, node, row, parts + [part]) == PartsMarks(env, node, row, parts) + PartMarks(env, node, row, part)
    ensures PartsMarks(env, node, row, []) == []
  {
    hide PartMarks;
    assert (parts + [part])[..|parts|] == parts;
  }

  lemma PartsTwo(env: Env, node: Node, row: Option<Row>, a: Part, b: Part)
    ensures PartsMarks(env, node, row, [a]) == PartMarks(env, node, row, a)
    ensures PartsMarks(env, node, row, [a, b]) == PartMarks(env, node, row, a) + PartMarks(env, node, row, b)
  {
    hide PartMarks, PartsMarks;
    PartsMore(env, node, row, [], a);
    PartsMore(env, node, row, [a], b);
    assert [] + [a] == [a] && [a] + [b] == [a, b];
    assert [] + PartMarks(env, node, row, a) == PartMarks(env, node, row, a);
  }

  lemma PartsFive(env: Env, node: Node, row: Option<Row>, a: Part, b: Part, c: Part, d: Part, e: Part)
    ensures PartsMarks(env, node, row, [a, b, c, d])
         == PartMarks(env, node, row, a) + PartMarks(env, node, row, b) + PartMarks(env, node, row, c) + PartMarks(env, node, row, d)
    ensures PartsMarks(env, node, row, [a, b, c, d, e])
         == PartMarks(env, node, row, a) + PartMarks(env, node, row, b) + PartMarks(env, node, row, c) + PartMarks(env, node, row, d)
            + PartMarks(env, node, row, e)
  {
    hide PartMarks, PartsMarks;
    PartsTwo(env, node, row, a, b);
    PartsMore(env, node, row, [a, b], c);
    PartsMore(env, node, row, [a, b, c], d);
    PartsMore(env, node, row, [a, b, c, d], e);
    assert [a, b] + [c] == [a, b, c] && [a, b, c] + [d] == [a, b, c, d] && [a, b, c, d] + [e] == [a, b, c, d, e];
  }

  lemma RegionsAreParts(env: Env, node: Node, row: Option<Row>)
    ensures Regions(Check, env, node, row) == PartsMarks(env, node, row, RegionParts(node))
  {
    hide PartsMarks, WalkChildren, ReadSlot, ReadChildren;
    var first := [AtSlot("header"), AtSlot("toolbar"), AtSlot("body"), AtChildren];
    PartsFive(env, node, row, AtSlot("header"), AtSlot("toolbar"), AtSlot("body"), AtChildren, AtSlot("empty"));
    if ReadSlot(node, "body") == [] && ReadChildren(node) == [] {
      var five := [AtSlot("header"), AtSlot("toolbar"), AtSlot("body"), AtChildren, AtSlot("empty")];
      PartsMore(env, node, row, five, AtSlot("footer"));
      PartsMore(env, node, row, five + [AtSlot("footer")], AtSlot("actions"));
      assert RegionParts(node) == five + [AtSlot("footer")] + [AtSlot("actions")];
    } else {
      PartsMore(env, node, row, first, AtSlot("footer"));
      PartsMore(env, node, row, first + [AtSlot("footer")], AtSlot("actions"));
      assert RegionParts(node) == first + [AtSlot("footer")] + [AtSlot("actions")];
      var before := PartsMarks(env, node, row, first);
      assert before + [] == before;
    }
  }

  /** One part per record, from the n-th on. */
  function RecordsFrom(count: nat, n: nat): seq<Part>
    requires n <= count
  {
    seq(count - n, r requires r >= 0 => AtRecord(n + r))
  }

  lemma {:induction false} RecordsAreParts(env: Env, node: Node, row: Option<Row>, n: nat)
    requires n <= |RecordsOf(env, node.records, row)|
    ensures var records := RecordsOf(env, node.records, row);
      WalkRecords(Check, env, ReadSlot(node, "item"), records[n..]) == PartsMarks(env, node, row, RecordsFrom(|records|, n))
    decreases |RecordsOf(env, node.records, row)| - n
  {
    hide WalkChildren, PartsMarks, ReadSlot, RecordsOf;
    var records := RecordsOf(env, node.records, row);
    if n == |records| {
      PartsMore(env, node, row, [], AtChildren);
      assert RecordsFrom(|records|, n) == [] && records[n..] == [];
    } else {
      RecordsAreParts(env, node, row, n + 1);
      assert RecordsFrom(|records|, n) == [AtRecord(n)] + RecordsFrom(|records|, n + 1);
      PartsConcat(env, node, row, [AtRecord(n)], RecordsFrom(|records|, n + 1));
      PartsTwo(env, node, row, AtRecord(n), AtChildren);
      assert records[n..][1..] == records[n + 1..] && records[n..][0] == records[n];
    }
  }

  lemma {:induction false} PartsConcat(env: Env, node: Node, row: Option<Row>, a: seq<Part>, b: seq<Part>)
    ensures PartsMarks(env, node, row, a + b) == PartsMarks(env, node, row, a) + PartsMarks(env, node, row, b)
    decreases |b|
  {
    hide PartMarks;
    if b == [] {
      assert a + b == a;
    } else {
      assert (a + b)[..|a + b| - 1] == a + b[..|b| - 1];
      PartsConcat(env, node, row, a, b[..|b| - 1]);
    }
  }

  /** The check visits exactly these parts of every node. */
  lemma InsideIsParts(env: Env, node: Node, row: Option<Row>)
    ensures Inside(Check, env, node, row) == PartsMarks(env, node, row, PartsOf(env, node, row))
  {
    hide PartsMarks, PartMarks, WalkChildren, WalkRecords, WalkItems, Regions, RegionParts, WalkEmptyState, RecordsOf, ReadChildren, ReadSlot;
    PartsMore(env, node, row, [], AtChildren);
    PartIs(env, node, row);
    match node.kind {
      case Section => RegionsAreParts(env, node, row);
      case Panel => RegionsAreParts(env, node, row);
      case Toolbar => PartsFive(env, node, row, AtSlot("commands"), AtSlot("filters"), AtSlot("search"), AtSlot("actions"), AtChildren);
      case ListItem => PartsFive(env, node, row, AtSlot("title"), AtSlot("subtitle"), AtSlot("meta"), AtSlot("actions"), AtChildren);
      case Dialog => PartsTwo(env, node, row, AtSlot("body"), AtChildren);
      case EmptyState => PartsTwo(env, node, row, AtSlot("actions"), AtChildren);
      case Select => PartsTwo(env, node, row, AtSlot("options"), AtChildren);
      case ItemList => ItemsAreParts(env, node, row);
      case Table => TableParts(env, node, row);
      case FormField =>
      case SelectOption =>
      case Leaf =>
      case Unknown =>
      case _ => PartsTwo(env, node, row, AtChildren, AtChildren);
    }
  }

  lemma PartIs(env: Env, node: Node, row: Option<Row>)
    ensures PartMarks(env, node, row, AtChildren) == WalkChildren(Check, env, ReadChildren(node), row)
    ensures forall name: string :: PartMarks(env, node, row, AtSlot(name)) == WalkSlot(Check, env, node, name, row)
  {
    hide WalkChildren;
  }

  lemma ItemsAreParts(env: Env, node: Node, row: Option<Row>)
    requires node.kind.ItemList?
    ensures WalkItems(Check, env, node, row) == PartsMarks(env, node, row, PartsOf(env, node, row))
  {
    hide PartsMarks, PartMarks, WalkChildren, WalkRecords, RecordsOf, ReadChildren, ReadSlot;
    var records := RecordsOf(env, node.records, row);
    PartIs(env, node, row);
    if records != [] {
      RecordsAreParts(env, node, row, 0);
      assert records[0..] == records && PartsOf(env, node, row) == RecordsFrom(|records|, 0);
    } else {
      PartsTwo(env, node, row, AtChildren, AtChildren);
      PartsTwo(env, node, row, AtSlot("empty"), AtChildren);
    }
  }

  lemma TableParts(env: Env, node: Node, row: Option<Row>)
    requires node.kind.Table?
    ensures WalkEmptyState(Check, env, node, row) == PartsMarks(env, node, row, PartsOf(env, node, row))
  {
    hide WalkNode, ResolveNode, PartsMarks, Realize, RecordsOf;
    PartsTwo(env, node, row, AtEmpty, AtChildren);
    PartsMore(env, node, row, [], AtChildren);
    assert PartMarks(env, node, row, AtEmpty) == WalkEmptyState(Check, env, node, row);
  }

  // ---------------------------------------------------------------------------
  // What the check decides.
  // ---------------------------------------------------------------------------

  /** The identity at the end of a path. */
  function IdAt(at: Reading, path: Path): Option<string> {
    if at(path).Some? && at(path).value.Mark? then Some(at(path).value.id) else None
  }

  /** No path leads to an identity that cannot be realized. */
  ghost predicate AllRealized(at: Reading) { forall path :: at(path).Some? ==> at(path).value.Mark? }

  /** No two different paths lead to the same identity. */
  ghost predicate Alone(at: Reading) {
    forall p, q :: p != q && IdAt(at, p).Some? ==> IdAt(at, p) != IdAt(at, q)
  }

  lemma {:induction false} IssuesNone(marks: seq<Mark>)
    ensures IssuesIn(marks) == [] <==> forall k :: 0 <= k < |marks| ==> marks[k].Mark?
  {
    if marks != [] {
      IssuesNone(marks[1..]);
      assert forall k :: 0 < k < |marks| ==> marks[k] == marks[1..][k - 1];
    }
  }

  /** Two marks of the same identity, or none. */
  lemma {:induction false} IdsOnce(marks: seq<Mark>)
    ensures Distinct(Ids(marks)) <==>
      forall j, k :: 0 <= j < k < |marks| && marks[j].Mark? && marks[k].Mark? ==> marks[j].id != marks[k].id
  {
    if marks != [] {
      var rest := marks[1..];
      IdsOnce(rest);
      IdsIn(rest);
      assert marks == [marks[0]] + rest;
      IdsConcat([marks[0]], rest);
      assert forall k :: 0 < k < |marks| ==> marks[k] == rest[k - 1];
      OneId(marks[0]);
      if marks[0].Mark? {
        DistinctCons(marks[0].id, Ids(rest));
        assert marks[0].id in Ids(rest) <==> exists k :: 0 <= k < |rest| && rest[k].Mark? && rest[k].id == marks[0].id;
        if k :| 0 <= k < |rest| && rest[k].Mark? && rest[k].id == marks[0].id { assert marks[k + 1] == rest[k]; }
        OnceParts(marks);
      } else {
        assert Ids(marks) == Ids(rest);
        OnceParts(marks);
      }
    }
  }

  ghost predicate Once(marks: seq<Mark>) {
    forall j, k :: 0 <= j < k < |marks| && marks[j].Mark? && marks[k].Mark? ==> marks[j].id != marks[k].id
  }

  lemma OnceParts(marks: seq<Mark>)
    requires marks != []
    ensures var rest := marks[1..];
      Once(marks) <==> (Once(rest) && (marks[0].Mark? ==> forall k :: 0 <= k < |rest| && rest[k].Mark? ==> rest[k].id != marks[0].id))
  {
    var rest := marks[1..];
    assert forall k :: 0 < k < |marks| ==> marks[k] == rest[k - 1];
    if Once(marks) {
      forall j, k | 0 <= j < k < |rest| && rest[j].Mark? && rest[k].Mark? ensures rest[j].id != rest[k].id {
        assert rest[j] == marks[j + 1] && rest[k] == marks[k + 1];
      }
      forall k | marks[0].Mark? && 0 <= k < |rest| && rest[k].Mark? ensures rest[k].id != marks[0].id { assert rest[k] == marks[k + 1]; }
    }
  }

  lemma OneId(mark: Mark)
    ensures Ids([mark]) == if mark.Mark? then [mark.id] else []
  {
    assert [mark][1..] == [];
  }

  lemma DistinctCons(id: string, ids: seq<string>)
    ensures Distinct([id] + ids) <==> id !in ids && Distinct(ids)
  {
    var all := [id] + ids;
    assert forall k :: 0 < k < |all| ==> all[k] == ids[k - 1];
    if Distinct(all) {
      forall j, k | 0 <= j < k < |ids| ensures ids[j] != ids[k] { assert all[j + 1] != all[k + 1]; }
      forall k | 0 <= k < |ids| ensures ids[k] != id { assert all[0] != all[k + 1]; }
    }
  }

  lemma {:induction false} IdsIn(marks: seq<Mark>)
    ensures forall x :: x in Ids(marks) <==> exists k :: 0 <= k < |marks| && marks[k].Mark? && marks[k].id == x
  {
    if marks != [] {
      var rest := marks[1..];
      IdsIn(rest);
      assert marks == [marks[0]] + rest;
      IdsConcat([marks[0]], rest);
      OneId(marks[0]);
      forall x ensures x in Ids(marks) <==> exists k :: 0 <= k < |marks| && marks[k].Mark? && marks[k].id == x {
        if k :| 0 <= k < |rest| && rest[k].Mark? && rest[k].id == x { assert marks[k + 1] == rest[k]; }
        if k :| 0 <= k < |marks| && marks[k].Mark? && marks[k].id == x { assert k > 0 ==> rest[k - 1] == marks[k]; }
      }
    }
  }

  /** What a list of all paths says of the paths. */
  lemma ListedDecides(marks: seq<Mark>, paths: seq<Path>, at: Reading)
    requires Lists(marks, paths, at)
    ensures IssuesIn(marks) == [] <==> AllRealized(at)
    ensures Distinct(Ids(marks)) <==> Alone(at)
  {
    hide IssuesIn, Ids, Distinct;
    IssuesNone(marks);
    IdsOnce(marks);
    if AllRealized(at) {
      forall k | 0 <= k < |marks| ensures marks[k].Mark? { assert at(paths[k]) == Some(marks[k]); }
    }
    if forall k :: 0 <= k < |marks| ==> marks[k].Mark? {
      forall path | at(path).Some? ensures at(path).value.Mark? {
        var k :| 0 <= k < |paths| && paths[k] == path;
      }
    }
    if Alone(at) {
      forall j, k | 0 <= j < k < |marks| && marks[j].Mark? && marks[k].Mark? ensures marks[j].id != marks[k].id {
        assert at(paths[j]) == Some(marks[j]) && at(paths[k]) == Some(marks[k]);
        assert IdAt(at, paths[j]) != IdAt(at, paths[k]);
      }
    }
    if Once(marks) {
      forall p, q | p != q && IdAt(at, p).Some? ensures IdAt(at, p) != IdAt(at, q) {
        if IdAt(at, q).Some? {
          var j :| 0 <= j < |paths| && paths[j] == p;
          var k :| 0 <= k < |paths| && paths[k] == q;
          assert at(p) == Some(marks[j]) && at(q) == Some(marks[k]);
        }
      }
    }
  }

  /** The check passes exactly when no path leads to an identity that cannot be realized and no two different
      paths lead to the same identity. */
  lemma PassesIff(env: Env, root: Node, id: Option<string>)
    ensures Passes(env, root, id) <==> AllRealized(FromNode(env, root, id, None)) && Alone(FromNode(env, root, id, None))
  {
    hide WalkNode, AllRealized, Alone, FromNode;
    NodeReached(env, root, id, None);
    var paths :| Lists(WalkNode(Check, env, root, id, None), paths, FromNode(env, root, id, None));
    ListedDecides(WalkNode(Check, env, root, id, None), paths, FromNode(env, root, id, None));
  }

  /** Where there are no selects and no form-field controls, the renderer emits the identity of every path once:
      they are distinct exactly when no two different paths lead to the same one. */
  lemma RenderedIff(env: Env, root: Node, id: Option<string>)
    requires DirectNode(root)
    ensures multiset(Ids(WalkNode(Render, env, root, id, None))) == multiset(Ids(WalkNode(Check, env, root, id, None)))
    ensures Distinct(Ids(WalkNode(Render, env, root, id, None))) <==> Alone(FromNode(env, root, id, None))
  {
    hide WalkNode, Alone, FromNode, Distinct;
    NodeReached(env, root, id, None);
    var paths :| Lists(WalkNode(Check, env, root, id, None), paths, FromNode(env, root, id, None));
    ListedDecides(WalkNode(Check, env, root, id, None), paths, FromNode(env, root, id, None));
    DirectIsEven(env, root, id);
    CountsDecide(Ids(WalkNode(Render, env, root, id, None)));
    CountsDecide(Ids(WalkNode(Check, env, root, id, None)));
  }

  lemma DirectIsEven(env: Env, root: Node, id: Option<string>)
    requires DirectNode(root)
    ensures multiset(Ids(WalkNode(Render, env, root, id, None))) == multiset(Ids(WalkNode(Check, env, root, id, None)))
  {
    hide WalkNode, SparesNode, Ids;
    var w := NodeWalks(env, root, id, None);
    NodeEven(env, root, id, None);
    NodeNotesNothing(Added, env, root, id, None);
    NodeNotesNothing(Hidden, env, root, id, None);
    CountNothing();
    assert w.added == [] && w.hidden == [];
    assert w.Even() && Count(w.added) == multiset{} && Count(w.hidden) == multiset{};
    forall x ensures Count(w.rendered)[x] == Count(w.checked)[x] {
      assert (Count(w.shown) + Count(w.hidden))[x] == (Count(w.checked) + Count(w.added))[x];
    }
    assert Count(w.rendered) == Count(w.checked);
  }
}
