/** Keys that repeat in a template do collide where its nodes are shown: for templates shown in full in their
    rows, identities are distinct exactly when the template's keys are. */
module BindListRepeats {
  import opened Wrappers
  import opened Strings
  import opened UiNodes
  import opened UiNodeIdentity
  import opened UiNodeReach
  import opened BindListIdentity

  // ---------------------------------------------------------------------------
  // Shown in full.
  // ---------------------------------------------------------------------------

  /** The node's identity is realized; a descendant key gives text that is not empty. */
  predicate Realizes(env: Env, node: Node, row: Option<Row>) {
    && Realize(env, node.id, row, false).Realized?
    && (node.id.DescendantId? ==> Own(node, Realize(env, node.id, row, false).id) != [])
  }

  /** The condition of a child holds; a bind list is no child of this kind. */
  predicate Holds(env: Env, child: Child, row: Option<Row>) {
    match child
    case Plain(_) => true
    case BindList(_, _, _) => false
    case BindIf(path, _) => env.truthy(path, row)
    case PresentationIf(predicate_, _) => env.presented(predicate_)
    case Conditional(hidden, width, pointer, _) => Matches(width, pointer) != hidden
  }

  /** Kinds that show all their children. */
  predicate ShowsChildren(env: Env, node: Node, row: Option<Row>) {
    match node.kind
    case ItemList => RecordsOf(env, node.records, row) == []
    case EmptyState => false
    case Select => false
    case Table => false
    case FormField => false
    case SelectOption => false
    case Leaf => false
    case Unknown => false
    case _ => true
  }

  /** What is inside the node is shown in this row: its children where its kind shows them, or the empty state
      of a table without rows; all conditions hold and every node is supported. */
  predicate InsideShown(env: Env, node: Node, row: Option<Row>)
    decreases Size(node), 0
  {
    && Supported(env, node) && node.slots == []
    && (node.children == [] || (ShowsChildren(env, node, row) && ChildrenShown(env, node.children, row)))
    && (node.emptyState.None? ||
          (node.kind.Table? && RecordsOf(env, node.records, row) == [] && EmptyStateShown(env, node, row)))
  }

  predicate EmptyStateShown(env: Env, node: Node, row: Option<Row>)
    requires node.emptyState.Some?
    decreases Size(node), 0, 0
  {
    ResolveNodeSize(env, node.emptyState.value, row);
    NodeShown(env, ResolveNode(env, node.emptyState.value, row), row)
  }

  predicate NodeShown(env: Env, node: Node, row: Option<Row>)
    decreases Size(node), 1
  {
    Realizes(env, node, row) && InsideShown(env, node, row)
  }

  predicate ChildrenShown(env: Env, children: seq<Child>, row: Option<Row>)
    decreases ChildrenSize(children)
  {
    children == [] ||
      (Holds(env, children[0], row) && (InChild(children[0]); NodeShown(env, children[0].node, row))
       && ChildrenShown(env, children[1..], row))
  }

  // ---------------------------------------------------------------------------
  // Such a template realizes all its keys, in order.
  // ---------------------------------------------------------------------------

  lemma OwnKey(env: Env, node: Node, row: Option<Row>)
    requires Realizes(env, node, row)
    ensures MarkKeys(Own(node, Realize(env, node.id, row, false).id)) == OwnKeys(node.id)
  {
    hide MarkKeys, Blank;
    var own := Own(node, Realize(env, node.id, row, false).id);
    IssuesHaveNoKeys([]);
    if own != [] { OneKey(own[0]); }
  }

  lemma {:induction false} NodeKeys(env: Env, node: Node, row: Option<Row>)
    requires NodeShown(env, node, row)
    ensures MarkKeys(WalkNode(Check, env, node, Realize(env, node.id, row, false).id, row)) == TemplateKeys(InRow(env, row), node)
    decreases Size(node), 1
  {
    hide MarkKeys, Realize, OwnKeys, Inside, ChildrenKeys, SlotsKeys, EmptyStateKeys, Own;
    OwnKey(env, node, row);
    InsideKeys(env, node, row);
    MarkKeysConcat(Own(node, Realize(env, node.id, row, false).id), Inside(Check, env, node, row));
  }

  /** The keys inside a node, in order. */
  lemma {:induction false} InsideKeys(env: Env, node: Node, row: Option<Row>)
    requires InsideShown(env, node, row)
    ensures MarkKeys(Inside(Check, env, node, row))
         == ChildrenKeys(InRow(env, row), node.children) + SlotsKeys(InRow(env, row), node.slots) + EmptyStateKeys(InRow(env, row), node)
    decreases Size(node), 0
  {
    hide MarkKeys, Inside, ChildrenKeys, NodeShown;
    IssuesHaveNoKeys([]);
    NoKeys(InRow(env, row), node);
    if node.kind.Table? {
      TableShows(env, node, row);
      if node.emptyState.Some? {
        var shown := ResolveNode(env, node.emptyState.value, row);
        ResolveNodeSize(env, node.emptyState.value, row);
        NodeKeys(env, shown, row);
      }
    } else {
      ChildrenOnly(env, node, row);
      if node.children != [] { ChildrenMarked(env, node.children, row); }
    }
  }

  lemma NoKeys(d: Sight, node: Node)
    ensures node.children == [] ==> ChildrenKeys(d, node.children) == []
    ensures node.slots == [] ==> SlotsKeys(d, node.slots) == []
    ensures node.emptyState.None? ==> EmptyStateKeys(d, node) == []
  {
  }

  lemma TableShows(env: Env, node: Node, row: Option<Row>)
    requires node.kind.Table? && InsideShown(env, node, row)
    ensures node.children == []
    ensures node.emptyState.None? ==> Inside(Check, env, node, row) == []
    ensures node.emptyState.Some? ==>
      var shown := ResolveNode(env, node.emptyState.value, row);
      && NodeShown(env, shown, row) && Realize(env, shown.id, row, false).Realized?
      && Inside(Check, env, node, row) == WalkNode(Check, env, shown, Realize(env, shown.id, row, false).id, row)
  {
    hide WalkNode, ResolveNode, Realize;
    assert Inside(Check, env, node, row) == WalkEmptyState(Check, env, node, row);
    if node.emptyState.Some? {
      assert EmptyStateShown(env, node, row);
      assert NodeShown(env, ResolveNode(env, node.emptyState.value, row), row);
    }
  }

  /** Without slots, what is inside a node that is no table is its children, if its kind shows them. */
  lemma ChildrenOnly(env: Env, node: Node, row: Option<Row>)
    requires !node.kind.Table? && node.slots == [] && (node.children == [] || ShowsChildren(env, node, row))
    ensures Inside(Check, env, node, row) == WalkChildren(Check, env, node.children, row)
  {
    hide WalkSlot, WalkRecords, WalkItems, Regions, RecordsOf, WalkChildren, WalkEmptyState;
    assert ReadChildren(node) == node.children;
    if node.children == [] { NoneWalked(env, row); }
    forall name: string ensures WalkSlot(Check, env, node, name, row) == [] { NoSlot(Check, env, node, name, row); }
    var none: seq<Mark> := [];
    assert none + none + none + none + WalkChildren(Check, env, node.children, row) == WalkChildren(Check, env, node.children, row);
    assert none + WalkChildren(Check, env, node.children, row) == WalkChildren(Check, env, node.children, row);
    RegionsOnly(env, node, row);
    if node.children == [] || RecordsOf(env, node.records, row) == [] { ItemsOnly(env, node, row); }
  }

  lemma NoneWalked(env: Env, row: Option<Row>)
    ensures WalkChildren(Check, env, [], row) == []
  {
  }

  lemma RegionsOnly(env: Env, node: Node, row: Option<Row>)
    requires node.slots == []
    ensures Regions(Check, env, node, row) == WalkChildren(Check, env, node.children, row)
  {
    hide WalkSlot, WalkChildren;
    assert ReadChildren(node) == node.children;
    forall name: string ensures WalkSlot(Check, env, node, name, row) == [] { NoSlot(Check, env, node, name, row); }
  }

  lemma ItemsOnly(env: Env, node: Node, row: Option<Row>)
    requires node.slots == [] && (node.children == [] || RecordsOf(env, node.records, row) == [])
    ensures WalkItems(Check, env, node, row) == WalkChildren(Check, env, node.children, row)
  {
    hide WalkSlot, WalkRecords, RecordsOf;
    assert ReadChildren(node) == node.children && ReadSlot(node, "item") == [];
    NoSlot(Check, env, node, "empty", row);
    NoRecords(Check, env, [], RecordsOf(env, node.records, row));
  }

  lemma {:induction false} ChildrenMarked(env: Env, children: seq<Child>, row: Option<Row>)
    requires ChildrenShown(env, children, row)
    ensures MarkKeys(WalkChildren(Check, env, children, row)) == ChildrenKeys(InRow(env, row), children)
    decreases ChildrenSize(children)
  {
    hide MarkKeys, WalkNode, TemplateKeys, NodeShown;
    if children == [] {
      IssuesHaveNoKeys([]);
    } else {
      InChild(children[0]);
      ChildMarks(env, children[0], row);
      NodeKeys(env, children[0].node, row);
      ChildrenMarked(env, children[1..], row);
      var walked := WalkResolved(Check, env, ResolveChild(env, children[0], row), ChildSize(children[0]));
      MarkKeysConcat(walked, WalkChildren(Check, env, children[1..], row));
      assert [] + walked == walked;
      assert WalkChildren(Check, env, children, row) == walked + WalkChildren(Check, env, children[1..], row);
      assert ChildrenKeys(InRow(env, row), children)
        == TemplateKeys(InRow(env, row), children[0].node) + ChildrenKeys(InRow(env, row), children[1..]);
    }
  }

  lemma ChildMarks(env: Env, child: Child, row: Option<Row>)
    requires Holds(env, child, row) && NodeShown(env, child.node, row)
    ensures IssuesOf(RejectedIn(env, child, row)) == []
    ensures WalkResolved(Check, env, ResolveChild(env, child, row), ChildSize(child))
         == WalkNode(Check, env, child.node, Realize(env, child.node.id, row, false).id, row)
  {
    hide WalkNode, Realize, InsideShown, Own;
    InChild(child);
    var resolved := Resolved(child.node, Realize(env, child.node.id, row, false).id, row);
    assert ResolveChild(env, child, row) == [resolved];
    OneResolved(env, resolved, ChildSize(child));
  }

  // ---------------------------------------------------------------------------
  // All rows of one bind list.
  // ---------------------------------------------------------------------------

  lemma RowKeys(env: Env, item: Node, record: Record, rowId: string)
    requires item.id.RowBinding? && rowId != "" && InsideShown(env, item, Some(Row(record, Some(rowId))))
    ensures RealizedKeys(env, item, record, rowId) == TemplateKeys(InRow(env, Some(Row(record, Some(rowId)))), item)
  {
    hide MarkKeys, Inside, RealizedKeys, ChildrenKeys, SlotsKeys, EmptyStateKeys;
    RowParts(env, item, record, rowId);
    InsideKeys(env, item, Some(Row(record, Some(rowId))));
  }

  /** For a template shown in full in every row: all row and descendant identities are distinct exactly when in
      no row the template has a key twice, in its nodes or in the empty states its tables show there. */
  lemma RepeatsCollide(env: Env, item: Node, records: seq<Record>, rows: seq<string>, bound: nat)
    requires item.id.RowBinding? && Flat(item) && Size(item) < bound
    requires RowIds(records, item.id.path, rows) && Distinct(rows) && Injective(env, rows)
    requires forall k :: 0 <= k < |rows| ==> InsideShown(env, item, Some(Row(records[k], Some(rows[k]))))
    ensures Distinct(BoundIds(AllRows(env, item, records, bound))) <==>
      forall k :: 0 <= k < |rows| ==> Distinct(TemplateKeys(InRow(env, Some(Row(records[k], Some(rows[k])))), item))
  {
    hide TemplateKeys, RealizedKeys, InsideShown, Flat, Distinct, BoundIds;
    BindListDistinctIff(env, item, records, rows, bound);
    forall k | 0 <= k < |rows|
      ensures RealizedKeys(env, item, records[k], rows[k]) == TemplateKeys(InRow(env, Some(Row(records[k], Some(rows[k])))), item)
    {
      NotBlank(item.id.path, Some(Row(records[k], None)));
      assert RowIdentity(item.id.path, Some(Row(records[k], None))) == Some(rows[k]);
      RowKeys(env, item, records[k], rows[k]);
    }
  }

  /** Where such a template has no empty states and there is a row, the authored check of repeated keys is exact. */
  lemma AuthoredCheckExact(env: Env, item: Node, records: seq<Record>, rows: seq<string>, bound: nat)
    requires item.id.RowBinding? && Flat(item) && Bare(item) && Size(item) < bound && rows != []
    requires RowIds(records, item.id.path, rows) && Distinct(rows) && Injective(env, rows)
    requires forall k :: 0 <= k < |rows| ==> InsideShown(env, item, Some(Row(records[k], Some(rows[k]))))
    ensures Distinct(BoundIds(AllRows(env, item, records, bound))) <==> !Repeated(TemplateKeys(Authored, item))
  {
    hide TemplateKeys, InsideShown, Flat, Bare, Distinct, BoundIds, Repeated;
    RepeatsCollide(env, item, records, rows, bound);
    NotRepeated(TemplateKeys(Authored, item));
    forall k | 0 <= k < |rows|
      ensures TemplateKeys(InRow(env, Some(Row(records[k], Some(rows[k])))), item) == TemplateKeys(Authored, item)
    {
      BareKeys(InRow(env, Some(Row(records[k], Some(rows[k])))), item);
    }
    assert 0 <= 0 < |rows|;
  }

  // ---------------------------------------------------------------------------
  // What the authored check reports, where nodes are shown.
  // ---------------------------------------------------------------------------

  /** The node is supported and shows its children, whose conditions hold, whatever their identities. */
  predicate Stood(env: Env, node: Node, row: Option<Row>)
    decreases Size(node)
  {
    && Supported(env, node) && node.slots == [] && node.emptyState.None?
    && (node.children == [] || (!node.kind.Table? && ShowsChildren(env, node, row) && StoodAll(env, node.children, row)))
  }

  predicate StoodAll(env: Env, children: seq<Child>, row: Option<Row>)
    decreases ChildrenSize(children)
  {
    children == [] ||
      (Holds(env, children[0], row) && (InChild(children[0]); Stood(env, children[0].node, row)) && StoodAll(env, children[1..], row))
  }

  /** In a template the row is bound to an identity, elsewhere to none. */
  predicate Binds(row: Option<Row>, template: bool) {
    if template then row.Some? && row.value.bound.Some? && row.value.bound.value != "" else row.None? || row.value.bound.None?
  }

  /** Row bindings the authored check lets pass: in a template those without a path, elsewhere all. */
  predicate LetsPass(id: Id, template: bool) { id.RowBinding? && (template ==> id.path.None?) }

  predicate NonePasses(node: Node, template: bool)
    decreases Size(node)
  {
    !LetsPass(node.id, template) && NonePassesIn(node.children, template)
  }

  predicate NonePassesIn(children: seq<Child>, template: bool)
    decreases ChildrenSize(children)
  {
    children == [] ||
      (!children[0].BindList? && (InChild(children[0]); NonePasses(children[0].node, template)) && NonePassesIn(children[1..], template))
  }

  /** What is reported about one node of a template below its root, or of a tree outside templates. */
  function Reported(node: Node, template: bool): seq<Id> { if template then TemplateInvalid(node, false) else TreeInvalid(node) }

  /** The node's own identity is refused exactly when it is reported or let pass. */
  lemma RefusedIff(env: Env, node: Node, row: Option<Row>, template: bool)
    requires Binds(row, template) && node.slots == []
    ensures !Realize(env, node.id, row, false).Missing?
    ensures Reported(node, template) == [] && !LetsPass(node.id, template) <==>
      !Realize(env, node.id, row, false).Rejected? && InvalidChildren(node.children, template) == []
  {
    hide Blank;
    assert InvalidSlots(node.slots, template) == [];
  }

  lemma {:induction false} NodeIssues(env: Env, node: Node, row: Option<Row>, template: bool)
    requires Stood(env, node, row) && Binds(row, template)
    ensures IssuesIn(IssuesOf(RejectedHere(env, node, row))) == []
            && (Realize(env, node.id, row, false).Realized? ==>
                  IssuesIn(WalkNode(Check, env, node, Realize(env, node.id, row, false).id, row)) == [])
       <==> Reported(node, template) == [] && NonePasses(node, template)
    decreases Size(node), 1
  {
    hide Realize, Inside, Reported, InvalidChildren, LetsPass;
    RefusedIff(env, node, row, template);
    OwnIssues(env, node, row);
    if Realize(env, node.id, row, false).Realized? {
      InsideIssues(env, node, row, template);
      IssuesConcat(Own(node, Realize(env, node.id, row, false).id), Inside(Check, env, node, row));
    }
  }

  lemma OwnIssues(env: Env, node: Node, row: Option<Row>)
    ensures IssuesIn(IssuesOf(RejectedHere(env, node, row))) == [] <==> !Realize(env, node.id, row, false).Rejected?
    ensures forall id :: IssuesIn(Own(node, id)) == []
  {
    hide Realize;
  }

  lemma {:induction false} InsideIssues(env: Env, node: Node, row: Option<Row>, template: bool)
    requires Stood(env, node, row) && Binds(row, template)
    ensures IssuesIn(Inside(Check, env, node, row)) == [] <==>
      InvalidChildren(node.children, template) == [] && NonePassesIn(node.children, template)
    decreases Size(node), 0
  {
    hide Inside, WalkChildren, Binds;
    if node.children == [] {
      ChildlessIssues(env, node, row);
    } else {
      ChildrenOnly(env, node, row);
      ChildrenIssues(env, node.children, row, template);
    }
  }

  lemma ChildlessIssues(env: Env, node: Node, row: Option<Row>)
    requires node.children == [] && node.slots == [] && node.emptyState.None?
    ensures Inside(Check, env, node, row) == []
  {
    hide WalkChildren, WalkItems, Regions, WalkRecords;
    if !node.kind.Table? {
      ChildrenOnly(env, node, row);
      NoneWalked(env, row);
    }
  }

  lemma {:induction false} ChildrenIssues(env: Env, children: seq<Child>, row: Option<Row>, template: bool)
    requires StoodAll(env, children, row) && Binds(row, template)
    ensures IssuesIn(WalkChildren(Check, env, children, row)) == [] <==>
      InvalidChildren(children, template) == [] && NonePassesIn(children, template)
    decreases ChildrenSize(children)
  {
    hide WalkNode, Stood, Reported, NonePasses, Binds;
    if children != [] {
      var child, rest := children[0], WalkChildren(Check, env, children[1..], row);
      InChild(child);
      NodeIssues(env, child.node, row, template);
      ChildrenIssues(env, children[1..], row, template);
      ChildIssues(env, child, row);
      var issues := IssuesOf(RejectedIn(env, child, row));
      var walked := WalkResolved(Check, env, ResolveChild(env, child, row), ChildSize(child));
      IssuesConcat(issues + walked, rest);
      IssuesConcat(issues, walked);
      ReportedIs(child, template);
    }
  }

  lemma ReportedIs(child: Child, template: bool)
    requires !child.BindList?
    ensures InvalidChild(child, template) == Reported(child.node, template)
  {
  }

  /** A child that stands is walked as its node, if that is realized. */
  lemma ChildIssues(env: Env, child: Child, row: Option<Row>)
    requires Holds(env, child, row)
    ensures RejectedIn(env, child, row) == RejectedHere(env, child.node, row)
    ensures WalkResolved(Check, env, ResolveChild(env, child, row), ChildSize(child)) ==
      if Realize(env, child.node.id, row, false).Realized? then WalkNode(Check, env, child.node, Realize(env, child.node.id, row, false).id, row) else []
  {
    hide WalkNode, Realize;
    InChild(child);
    if Realize(env, child.node.id, row, false).Realized? {
      OneResolved(env, Resolved(child.node, Realize(env, child.node.id, row, false).id, row), ChildSize(child));
    }
  }

  /** In a row bound to an identity, a template that stands realizes all its identities exactly when the authored
      check reports none of them, and no row binding without a path stands below its root. */
  lemma AuthoredIssuesExact(env: Env, item: Node, record: Record, rowId: string)
    requires item.id.RowBinding? && rowId != "" && Stood(env, item, Some(Row(record, Some(rowId))))
    ensures IssuesIn(WalkNode(Check, env, item, Some(rowId), Some(Row(record, Some(rowId))))) == []
       <==> TemplateInvalid(item, true) == [] && NonePassesIn(item.children, true)
  {
    hide Inside, Stood;
    var row := Some(Row(record, Some(rowId)));
    StoodParts(env, item, row);
    InsideIssues(env, item, row, true);
    OwnIssues(env, item, row);
    IssuesConcat(Own(item, Some(rowId)), Inside(Check, env, item, row));
    assert InvalidSlots(item.slots, true) == [];
  }

  lemma StoodParts(env: Env, node: Node, row: Option<Row>)
    requires Stood(env, node, row)
    ensures Supported(env, node) && node.slots == []
  {
  }

  /** The root of a template is reported exactly when its rows refuse it. */
  lemma RootReportedIff(env: Env, item: Node, record: Record)
    ensures InRecord(env, item, record).Refused? <==> OwnInvalid(item.id, true) != []
  {
    RootsRead(env, item, record);
  }
}
