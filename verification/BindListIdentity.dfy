/** Identities a bind list realizes, over distinct rows: all row and descendant identities are distinct exactly
    when no row realizes a descendant key twice. The authored check rejects a template that uses a key twice,
    but it does not look into the empty states of tables. */
module BindListIdentity {
  import opened Wrappers
  import opened Strings
  import opened UiNodes
  import opened UiNodeIdentity

  // ---------------------------------------------------------------------------
  // The authored check.
  // ---------------------------------------------------------------------------

  predicate ValidKey(key: Option<string>) { key.Some? && !Blank(key.value) }

  /** How far the keys of a template are seen: by the authored check, or in a row, where the empty states of
      tables are walked with their bindings resolved. */
  datatype Sight = Authored | InRow(env: Env, row: Option<Row>)

  /** The descendant keys of a template, nested bind lists apart. */
  function TemplateKeys(d: Sight, node: Node): seq<string>
    decreases Size(node)
  {
    OwnKeys(node.id) + ChildrenKeys(d, node.children) + SlotsKeys(d, node.slots) + EmptyStateKeys(d, node)
  }

  function OwnKeys(id: Id): seq<string> {
    if id.DescendantId? && ValidKey(id.key) then [id.key.value] else []
  }

  function EmptyStateKeys(d: Sight, node: Node): seq<string>
    decreases Size(node), 0
  {
    if d.Authored? || node.emptyState.None? then []
    else
      ResolveNodeSize(d.env, node.emptyState.value, d.row);
      TemplateKeys(d, ResolveNode(d.env, node.emptyState.value, d.row))
  }

  function ChildKeys(d: Sight, child: Child): seq<string>
    decreases ChildSize(child)
  {
    if child.BindList? then [] else TemplateKeys(d, child.node)
  }

  function ChildrenKeys(d: Sight, children: seq<Child>): seq<string>
    decreases ChildrenSize(children)
  {
    if children == [] then [] else ChildKeys(d, children[0]) + ChildrenKeys(d, children[1..])
  }

  function SlotsKeys(d: Sight, slots: seq<Slot>): seq<string>
    decreases SlotsSize(slots)
  {
    if slots == [] then [] else ChildrenKeys(d, slots[0].children) + SlotsKeys(d, slots[1..])
  }

  /** A descendant key that is no text, blank, or at the root of a template; a row binding below the root. */
  function OwnInvalid(id: Id, root: bool): seq<Id> {
    match id
    case DescendantId(key) => (if ValidKey(key) then [] else [id]) + if root then [id] else []
    case RowBinding(path) => if !root && path.Some? then [id] else []
    case _ => []
  }

  function TemplateInvalid(node: Node, root: bool): seq<Id> {
    OwnInvalid(node.id, root) + InvalidChildren(node.children, true) + InvalidSlots(node.slots, true)
  }

  /** Outside templates no descendant identity may stand at all. */
  function TreeInvalid(node: Node): seq<Id> {
    (if node.id.DescendantId? then [node.id] else [])
    + InvalidChildren(node.children, false) + InvalidSlots(node.slots, false)
  }

  /** Below a bind list its item is a template of its own, its empty template an ordinary tree. */
  function InvalidChild(child: Child, template: bool): seq<Id> {
    match child
    case BindList(_, item, empty) =>
      TemplateInvalid(item, true) + (if Repeated(TemplateKeys(Authored, item)) then [item.id] else [])
      + if empty.Some? then TreeInvalid(empty.value) else []
    case _ => if template then TemplateInvalid(child.node, false) else TreeInvalid(child.node)
  }

  function InvalidChildren(children: seq<Child>, template: bool): seq<Id> {
    if children == [] then [] else InvalidChild(children[0], template) + InvalidChildren(children[1..], template)
  }

  function InvalidSlots(slots: seq<Slot>, template: bool): seq<Id> {
    if slots == [] then [] else InvalidChildren(slots[0].children, template) + InvalidSlots(slots[1..], template)
  }

  predicate Repeated(keys: seq<string>) {
    keys != [] && (keys[0] in keys[1..] || Repeated(keys[1..]))
  }

  lemma {:induction false} NotRepeated(keys: seq<string>)
    ensures !Repeated(keys) <==> Distinct(keys)
  {
    if keys != [] {
      NotRepeated(keys[1..]);
      if keys[0] in keys[1..] {
        var k :| 0 <= k < |keys[1..]| && keys[1..][k] == keys[0];
        assert keys[0] == keys[k + 1];
      } else if Distinct(keys[1..]) {
        forall j, k | 0 <= j < k < |keys| ensures keys[j] != keys[k] {
          assert keys[k] == keys[1..][k - 1];
          if j > 0 { assert keys[j] == keys[1..][j - 1]; }
        }
      } else {
        var j, k :| 0 <= j < k < |keys[1..]| && keys[1..][j] == keys[1..][k];
        assert keys[j + 1] == keys[k + 1];
      }
    }
  }

  /** The authored check reports nothing about this bind list. */
  predicate CleanBindList(item: Node) {
    TemplateInvalid(item, true) == [] && !Repeated(TemplateKeys(Authored, item))
  }

  // ---------------------------------------------------------------------------
  // Descendants noted while a template is walked in one row.
  // ---------------------------------------------------------------------------

  /** No nested bind list. */
  predicate Flat(node: Node) {
    && FlatAll(node.children) && FlatSlots(node.slots)
    && (node.emptyState.Some? ==> Flat(node.emptyState.value))
  }

  predicate FlatChild(child: Child) { !child.BindList? && Flat(child.node) }

  predicate FlatAll(children: seq<Child>) {
    children == [] || (FlatChild(children[0]) && FlatAll(children[1..]))
  }

  predicate FlatSlots(slots: seq<Slot>) { slots == [] || (FlatAll(slots[0].children) && FlatSlots(slots[1..])) }

  /** The descendant keys realized, in order. */
  function MarkKeys(marks: seq<Mark>): seq<string> {
    if marks == [] then []
    else
      (if marks[0].Mark? && marks[0].source.DescendantId? && marks[0].source.key.Some? then [marks[0].source.key.value] else [])
      + MarkKeys(marks[1..])
  }

  /** Descendants are derived from the row they stand in, and no row binding is realized. */
  ghost predicate Derived(env: Env, marks: seq<Mark>, bound: Option<string>) {
    forall k :: 0 <= k < |marks| && marks[k].Mark? ==>
      && !marks[k].source.RowBinding?
      && (marks[k].source.DescendantId? ==>
            bound.Some? && marks[k].source.key.Some? && marks[k].id == env.descend(bound.value, marks[k].source.key.value))
  }

  /** Derived, from each of these keys at most once. */
  ghost predicate Bounded(env: Env, marks: seq<Mark>, bound: Option<string>, keys: multiset<string>) {
    Derived(env, marks, bound) && multiset(MarkKeys(marks)) <= keys
  }

  lemma {:induction false} MarkKeysConcat(a: seq<Mark>, b: seq<Mark>)
    ensures MarkKeys(a + b) == MarkKeys(a) + MarkKeys(b)
  {
    if a == [] {
      assert a + b == b;
    } else {
      assert (a + b)[1..] == a[1..] + b;
      MarkKeysConcat(a[1..], b);
    }
  }

  lemma BoundedConcat(env: Env, a: seq<Mark>, b: seq<Mark>, bound: Option<string>, j: multiset<string>, k: multiset<string>)
    requires Bounded(env, a, bound, j) && Bounded(env, b, bound, k)
    ensures Bounded(env, a + b, bound, j + k)
  {
    MarkKeysConcat(a, b);
    assert Derived(env, a + b, bound);
  }

  lemma BoundedMore(env: Env, marks: seq<Mark>, bound: Option<string>, j: multiset<string>, k: multiset<string>)
    requires Bounded(env, marks, bound, j) && j <= k
    ensures Bounded(env, marks, bound, k)
  {
  }

  lemma NothingBounded(env: Env, bound: Option<string>, keys: multiset<string>)
    ensures Bounded(env, [], bound, keys)
  {
  }

  lemma {:induction false} IssuesBounded(env: Env, rejected: seq<Id>, bound: Option<string>, keys: multiset<string>)
    ensures Bounded(env, IssuesOf(rejected), bound, keys)
  {
    IssuesHaveNoKeys(IssuesOf(rejected));
  }

  lemma {:induction false} IssuesHaveNoKeys(marks: seq<Mark>)
    requires forall k :: 0 <= k < |marks| ==> marks[k].Issue?
    ensures MarkKeys(marks) == []
  {
    if marks != [] { IssuesHaveNoKeys(marks[1..]); }
  }

  /** Without a bound row there are no descendants. */
  lemma {:induction false} UnboundHasNoKeys(env: Env, marks: seq<Mark>)
    requires Derived(env, marks, None)
    ensures MarkKeys(marks) == []
  {
    if marks != [] {
      assert forall k :: 0 <= k < |marks[1..]| ==> marks[1..][k] == marks[k + 1];
      UnboundHasNoKeys(env, marks[1..]);
    }
  }

  function BoundOf(row: Option<Row>): Option<string> { if row.Some? then row.value.bound else None }

  // ---------------------------------------------------------------------------
  // Slots read under different names hold different keys.
  // ---------------------------------------------------------------------------

  function SlotKeys(d: Sight, slots: seq<Slot>, name: string): multiset<string> { multiset(ChildrenKeys(d, FindSlot(slots, name))) }

  /** The keys of a node's children and slots. */
  function SlottedKeys(d: Sight, node: Node): multiset<string> {
    multiset(ChildrenKeys(d, node.children)) + multiset(SlotsKeys(d, node.slots))
  }

  function NamedKeys(d: Sight, slots: seq<Slot>, names: seq<string>): multiset<string> {
    if names == [] then multiset{} else SlotKeys(d, slots, names[0]) + NamedKeys(d, slots, names[1..])
  }

  lemma {:induction false} NamesElsewhere(d: Sight, slots: seq<Slot>, names: seq<string>)
    requires slots != [] && slots[0].name !in names
    ensures NamedKeys(d, slots, names) == NamedKeys(d, slots[1..], names)
  {
    if names != [] { NamesElsewhere(d, slots, names[1..]); }
  }

  lemma NamedCons(d: Sight, slots: seq<Slot>, name: string, names: seq<string>)
    ensures NamedKeys(d, slots, [name] + names) == SlotKeys(d, slots, name) + NamedKeys(d, slots, names)
  {
    assert ([name] + names)[1..] == names;
  }

  /** The names without the k-th. */
  function Others(names: seq<string>, k: nat): seq<string>
    requires k < |names|
  {
    names[..k] + names[k + 1..]
  }

  lemma OthersCons(names: seq<string>, k: nat)
    requires 0 < k < |names|
    ensures names == [names[0]] + names[1..] && Others(names, k) == [names[0]] + Others(names[1..], k - 1)
    ensures names[1..][k - 1] == names[k]
  {
  }

  lemma {:induction false} NamedRemove(d: Sight, slots: seq<Slot>, names: seq<string>, k: nat)
    requires k < |names|
    ensures NamedKeys(d, slots, names) == SlotKeys(d, slots, names[k]) + NamedKeys(d, slots, Others(names, k))
    decreases |names|
  {
    if k == 0 {
      assert Others(names, k) == names[1..];
    } else {
      hide SlotKeys, NamedKeys, Others;
      NamedRemove(d, slots, names[1..], k - 1);
      NamedCons(d, slots, names[0], Others(names[1..], k - 1));
      NamedCons(d, slots, names[0], names[1..]);
      OthersCons(names, k);
      Swap(SlotKeys(d, slots, names[0]), SlotKeys(d, slots, names[k]), NamedKeys(d, slots, Others(names[1..], k - 1)));
    }
  }

  lemma Swap(a: multiset<string>, b: multiset<string>, c: multiset<string>)
    ensures a + (b + c) == b + (a + c)
  {
  }

  lemma OthersDistinct(names: seq<string>, k: nat)
    requires k < |names| && Distinct(names)
    ensures Distinct(Others(names, k)) && names[k] !in Others(names, k)
  {
    assert forall j :: 0 <= j < |Others(names, k)| ==> Others(names, k)[j] == names[if j < k then j else j + 1];
  }

  lemma {:induction false} NamesWithin(d: Sight, slots: seq<Slot>, names: seq<string>)
    requires Distinct(names)
    ensures NamedKeys(d, slots, names) <= multiset(SlotsKeys(d, slots))
  {
    if slots == [] {
      NoSlots(d, names);
    } else if slots[0].name in names {
      var k :| 0 <= k < |names| && names[k] == slots[0].name;
      var rest := Others(names, k);
      NamedRemove(d, slots, names, k);
      OthersDistinct(names, k);
      NamesElsewhere(d, slots, rest);
      NamesWithin(d, slots[1..], rest);
    } else {
      NamesElsewhere(d, slots, names);
      NamesWithin(d, slots[1..], names);
    }
  }

  lemma {:induction false} NoSlots(d: Sight, names: seq<string>)
    ensures NamedKeys(d, [], names) == multiset{}
  {
    if names != [] { NoSlots(d, names[1..]); }
  }

  // ---------------------------------------------------------------------------
  // The walk.
  // ---------------------------------------------------------------------------

  lemma {:induction false} FlatSlot(slots: seq<Slot>, name: string)
    requires FlatSlots(slots)
    ensures FlatAll(FindSlot(slots, name))
  {
    if slots != [] && slots[0].name != name { FlatSlot(slots[1..], name); }
  }

  /** A realized identity of a flat node in a row. */
  lemma OwnBounded(env: Env, node: Node, row: Option<Row>)
    requires Realize(env, node.id, row, false).Realized?
    ensures Bounded(env, Own(node, Realize(env, node.id, row, false).id), BoundOf(row),
                    multiset(OwnKeys(node.id)))
  {
    hide MarkKeys, Blank;
    var own := Own(node, Realize(env, node.id, row, false).id);
    if own == [] {
      NothingBounded(env, BoundOf(row), multiset(OwnKeys(node.id)));
    } else {
      OneKey(own[0]);
    }
  }

  lemma OneKey(mark: Mark)
    requires mark.Mark?
    ensures MarkKeys([mark]) == if mark.source.DescendantId? && mark.source.key.Some? then [mark.source.key.value] else []
  {
    assert [mark][1..] == [];
  }

  lemma {:induction false} NodeBounded(env: Env, node: Node, row: Option<Row>)
    requires Flat(node) && Realize(env, node.id, row, false).Realized?
    ensures Bounded(env, WalkNode(Check, env, node, Realize(env, node.id, row, false).id, row), BoundOf(row), multiset(TemplateKeys(InRow(env, row), node)))
    decreases Size(node), 3, 0
  {
    hide Realize, Bounded, Own, Inside, InnerKeys, TemplateKeys, OwnKeys;
    var id := Realize(env, node.id, row, false).id;
    var own, inner := multiset(OwnKeys(node.id)), InnerKeys(InRow(env, row), node);
    OwnBounded(env, node, row);
    KeysAre(InRow(env, row), node);
    if Supported(env, node) {
      InsideBounded(env, node, row);
      BoundedConcat(env, Own(node, id), Inside(Check, env, node, row), BoundOf(row), own, inner);
    } else {
      BoundedMore(env, Own(node, id), BoundOf(row), own, own + inner);
    }
  }

  /** The keys inside a node. */
  function InnerKeys(d: Sight, node: Node): multiset<string> { SlottedKeys(d, node) + multiset(EmptyStateKeys(d, node)) }

  lemma KeysAre(d: Sight, node: Node)
    ensures multiset(TemplateKeys(d, node)) == multiset(OwnKeys(node.id)) + InnerKeys(d, node)
  {
    hide ChildrenKeys, SlotsKeys, EmptyStateKeys;
  }

  lemma InChild(child: Child)
    requires !child.BindList?
    ensures ChildSize(child) == 1 + Size(child.node)
  {
  }

  lemma {:induction false} FlatResolved(env: Env, node: Node, row: Option<Row>)
    requires Flat(node)
    ensures Flat(ResolveNode(env, node, row))
    decreases Size(node)
  {
    FlatResolvedAll(env, node.children, row);
    FlatResolvedSlots(env, node.slots, row);
    if node.emptyState.Some? { FlatResolved(env, node.emptyState.value, row); }
  }

  lemma {:induction false} FlatResolvedAll(env: Env, children: seq<Child>, row: Option<Row>)
    requires FlatAll(children)
    ensures FlatAll(ResolveAll(env, children, row))
    decreases ChildrenSize(children)
  {
    if children != [] {
      InChild(children[0]);
      FlatResolved(env, children[0].node, row);
      FlatResolvedAll(env, children[1..], row);
    }
  }

  lemma {:induction false} FlatResolvedSlots(env: Env, slots: seq<Slot>, row: Option<Row>)
    requires FlatSlots(slots)
    ensures FlatSlots(ResolveSlots(env, slots, row))
    decreases SlotsSize(slots)
  {
    if slots != [] {
      FlatResolvedAll(env, slots[0].children, row);
      FlatResolvedSlots(env, slots[1..], row);
    }
  }

  lemma {:induction false} EmptyStateBounded(env: Env, node: Node, row: Option<Row>)
    requires Flat(node)
    ensures Bounded(env, WalkEmptyState(Check, env, node, row), BoundOf(row), multiset(EmptyStateKeys(InRow(env, row), node)))
    decreases Size(node), 1, 0
  {
    hide Bounded, WalkNode, Realize, ResolveNode, TemplateKeys;
    NothingBounded(env, BoundOf(row), multiset(EmptyStateKeys(InRow(env, row), node)));
    if RecordsOf(env, node.records, row) == [] && node.emptyState.Some? {
      var shown := ResolveNode(env, node.emptyState.value, row);
      ResolveNodeSize(env, node.emptyState.value, row);
      FlatResolved(env, node.emptyState.value, row);
      IssuesBounded(env, RejectedHere(env, shown, row), BoundOf(row), multiset(EmptyStateKeys(InRow(env, row), node)));
      if Realize(env, shown.id, row, false).Realized? { NodeBounded(env, shown, row); }
    }
  }

  lemma {:induction false} InSlot(env: Env, node: Node, name: string, row: Option<Row>)
    requires Flat(node)
    ensures Bounded(env, WalkSlot(Check, env, node, name, row), BoundOf(row), SlotKeys(InRow(env, row), node.slots, name))
    decreases Size(node), 0, 0
  {
    FlatSlot(node.slots, name);
    ChildrenBounded(env, ReadSlot(node, name), row);
  }

  lemma {:induction false} InChildren(env: Env, node: Node, row: Option<Row>)
    requires Flat(node)
    ensures Bounded(env, WalkChildren(Check, env, ReadChildren(node), row), BoundOf(row),
                    multiset(ChildrenKeys(InRow(env, row), node.children)) + SlotKeys(InRow(env, row), node.slots, "children"))
    decreases Size(node), 0, 0
  {
    FlatSlot(node.slots, "children");
    FlatConcat(node.children, ReadSlot(node, "children"));
    KeysConcat(InRow(env, row), node.children, ReadSlot(node, "children"));
    ChildrenBounded(env, ReadChildren(node), row);
  }

  lemma {:induction false} FlatConcat(a: seq<Child>, b: seq<Child>)
    requires FlatAll(a) && FlatAll(b)
    ensures FlatAll(a + b)
  {
    if a == [] {
      assert a + b == b;
    } else {
      assert (a + b)[1..] == a[1..] + b;
      FlatConcat(a[1..], b);
    }
  }

  lemma {:induction false} KeysConcat(d: Sight, a: seq<Child>, b: seq<Child>)
    ensures ChildrenKeys(d, a + b) == ChildrenKeys(d, a) + ChildrenKeys(d, b)
  {
    if a == [] {
      assert a + b == b;
    } else {
      assert (a + b)[1..] == a[1..] + b;
      KeysConcat(d, a[1..], b);
    }
  }

  /** What is inside one node: children and differently named slots, or the empty state of a table. */
  lemma {:induction false} InsideBounded(env: Env, node: Node, row: Option<Row>)
    requires Flat(node)
    ensures Bounded(env, Inside(Check, env, node, row), BoundOf(row), InnerKeys(InRow(env, row), node))
    decreases Size(node), 2, 0
  {
    hide Bounded, WalkChildren, WalkSlot, WalkItems, WalkEmptyState, Regions, NamedKeys, SlotKeys, SlottedKeys, EmptyStateKeys;
    var b, slotted, empty := BoundOf(row), SlottedKeys(InRow(env, row), node), multiset(EmptyStateKeys(InRow(env, row), node));
    if node.kind.Table? {
      EmptyStateBounded(env, node, row);
      BoundedMore(env, Inside(Check, env, node, row), b, empty, slotted + empty);
    } else {
      SlottedBounded(env, node, row);
      BoundedMore(env, Inside(Check, env, node, row), b, slotted, slotted + empty);
    }
  }

  lemma {:induction false} SlottedBounded(env: Env, node: Node, row: Option<Row>)
    requires Flat(node) && !node.kind.Table?
    ensures Bounded(env, Inside(Check, env, node, row), BoundOf(row), SlottedKeys(InRow(env, row), node))
    decreases Size(node), 1, 10
  {
    hide Bounded, WalkChildren, WalkSlot, WalkItems, Regions, NamedKeys, SlotKeys, SlottedKeys;
    NothingBounded(env, BoundOf(row), SlottedKeys(InRow(env, row), node));
    match node.kind {
      case Section => RegionsBounded(env, node, row);
      case Panel => RegionsBounded(env, node, row);
      case Toolbar => FourAndChildren(env, node, row, "commands", "filters", "search", "actions");
      case ListItem => FourAndChildren(env, node, row, "title", "subtitle", "meta", "actions");
      case EmptyState => OneSlot(env, node, row, "actions");
      case Select => OneSlot(env, node, row, "options");
      case ItemList => ItemsBounded(env, node, row);
      case Dialog => BodyAndChildren(env, node, row);
      case Table =>
      case _ => OnlyChildren(env, node, row);
    }
  }

  lemma {:induction false} OnlyChildren(env: Env, node: Node, row: Option<Row>)
    requires Flat(node)
    ensures Bounded(env, WalkChildren(Check, env, ReadChildren(node), row), BoundOf(row),
                    SlottedKeys(InRow(env, row), node))
    decreases Size(node), 1, 0
  {
    hide Bounded, WalkChildren;
    InChildren(env, node, row);
    NamesWithin(InRow(env, row), node.slots, ["children"]);
    NamedOne(InRow(env, row), node.slots, "children");
    BoundedMore(env, WalkChildren(Check, env, ReadChildren(node), row), BoundOf(row),
                multiset(ChildrenKeys(InRow(env, row), node.children)) + SlotKeys(InRow(env, row), node.slots, "children"),
                SlottedKeys(InRow(env, row), node));
  }

  lemma NamedOne(d: Sight, slots: seq<Slot>, name: string)
    ensures NamedKeys(d, slots, [name]) == SlotKeys(d, slots, name)
  {
    assert [name][1..] == [];
  }

  lemma {:induction false} OneSlot(env: Env, node: Node, row: Option<Row>, name: string)
    requires Flat(node)
    ensures Bounded(env, WalkSlot(Check, env, node, name, row), BoundOf(row),
                    SlottedKeys(InRow(env, row), node))
    decreases Size(node), 1, 0
  {
    hide Bounded, WalkSlot;
    InSlot(env, node, name, row);
    NamesWithin(InRow(env, row), node.slots, [name]);
    NamedOne(InRow(env, row), node.slots, name);
    BoundedMore(env, WalkSlot(Check, env, node, name, row), BoundOf(row), SlotKeys(InRow(env, row), node.slots, name),
                SlottedKeys(InRow(env, row), node));
  }

  lemma {:induction false} NamedSnoc(d: Sight, slots: seq<Slot>, names: seq<string>, name: string)
    ensures NamedKeys(d, slots, names + [name]) == NamedKeys(d, slots, names) + SlotKeys(d, slots, name)
  {
    NamedRemove(d, slots, names + [name], |names|);
    assert Others(names + [name], |names|) == names;
  }

  lemma {:induction false} NamedBounded(env: Env, node: Node, names: seq<string>, row: Option<Row>)
    requires Flat(node)
    ensures Bounded(env, SlotsOf(env, node, names, row), BoundOf(row), NamedKeys(InRow(env, row), node.slots, names))
    decreases Size(node), 1, |names|
  {
    hide Bounded, WalkSlot, SlotKeys;
    if names == [] {
      NothingBounded(env, BoundOf(row), NamedKeys(InRow(env, row), node.slots, names));
    } else {
      var front, last := names[..|names| - 1], names[|names| - 1];
      NamedBounded(env, node, front, row);
      InSlot(env, node, last, row);
      BoundedConcat(env, SlotsOf(env, node, front, row), WalkSlot(Check, env, node, last, row), BoundOf(row),
                    NamedKeys(InRow(env, row), node.slots, front), SlotKeys(InRow(env, row), node.slots, last));
      NamedSnoc(InRow(env, row), node.slots, front, last);
      assert names == front + [last];
    }
  }

  /** Distinct slots before and after the children stay within the template's keys. */
  lemma {:induction false} AroundChildren(env: Env, node: Node, row: Option<Row>, first: seq<string>, last: seq<string>)
    requires Flat(node) && Distinct(first + last + ["children"])
    ensures Bounded(env, SlotsOf(env, node, first, row) + WalkChildren(Check, env, ReadChildren(node), row) + SlotsOf(env, node, last, row),
                    BoundOf(row), SlottedKeys(InRow(env, row), node))
    decreases Size(node), 1, |first| + |last| + 1
  {
    hide Bounded, WalkSlot, WalkChildren, SlotKeys, NamedKeys, SlotsOf;
    var b, own, all := BoundOf(row), multiset(ChildrenKeys(InRow(env, row), node.children)), multiset(SlotsKeys(InRow(env, row), node.slots));
    var j, k, c := NamedKeys(InRow(env, row), node.slots, first), NamedKeys(InRow(env, row), node.slots, last), SlotKeys(InRow(env, row), node.slots, "children");
    NamedBounded(env, node, first, row);
    NamedBounded(env, node, last, row);
    InChildren(env, node, row);
    var a1, a2, a3 := SlotsOf(env, node, first, row), WalkChildren(Check, env, ReadChildren(node), row), SlotsOf(env, node, last, row);
    BoundedConcat(env, a1, a2, b, j, own + c);
    BoundedConcat(env, a1 + a2, a3, b, j + (own + c), k);
    NamedSplit(InRow(env, row), node.slots, first + last, ["children"]);
    NamedSplit(InRow(env, row), node.slots, first, last);
    NamedOne(InRow(env, row), node.slots, "children");
    NamesWithin(InRow(env, row), node.slots, first + last + ["children"]);
    SumsWithin(own, all, j, k, c);
    BoundedMore(env, a1 + a2 + a3, b, j + (own + c) + k, own + all);
  }

  lemma SumsWithin(own: multiset<string>, all: multiset<string>, j: multiset<string>, k: multiset<string>, c: multiset<string>)
    requires j + k + c <= all
    ensures j + (own + c) + k <= own + all
  {
    forall x ensures (j + (own + c) + k)[x] <= (own + all)[x] {
      assert (j + k + c)[x] <= all[x];
    }
  }

  lemma {:induction false} NamedSplit(d: Sight, slots: seq<Slot>, a: seq<string>, b: seq<string>)
    ensures NamedKeys(d, slots, a + b) == NamedKeys(d, slots, a) + NamedKeys(d, slots, b)
  {
    if a == [] {
      assert a + b == b;
    } else {
      assert (a + b)[1..] == a[1..] + b;
      NamedSplit(d, slots, a[1..], b);
    }
  }

  lemma {:induction false} FourAndChildren(env: Env, node: Node, row: Option<Row>, p: string, q: string, r: string, s: string)
    requires Flat(node) && Distinct([p, q, r, s, "children"])
    ensures Bounded(env, WalkSlot(Check, env, node, p, row) + WalkSlot(Check, env, node, q, row)
                      + WalkSlot(Check, env, node, r, row) + WalkSlot(Check, env, node, s, row)
                      + WalkChildren(Check, env, ReadChildren(node), row),
                    BoundOf(row), SlottedKeys(InRow(env, row), node))
    decreases Size(node), 1, 6
  {
    hide Bounded, WalkSlot, WalkChildren;
    var none: seq<string> := [];
    assert [p, q, r, s] + none + ["children"] == [p, q, r, s, "children"];
    AroundChildren(env, node, row, [p, q, r, s], none);
    SlotsOfFour(env, node, p, q, r, s, row);
    SlotsOfOne(env, node, p, row);
    var five := SlotsOf(env, node, [p, q, r, s], row) + WalkChildren(Check, env, ReadChildren(node), row);
    assert five + SlotsOf(env, node, none, row) == five;
  }

  lemma {:induction false} BodyAndChildren(env: Env, node: Node, row: Option<Row>)
    requires Flat(node)
    ensures Bounded(env, WalkSlot(Check, env, node, "body", row) + WalkChildren(Check, env, ReadChildren(node), row),
                    BoundOf(row), SlottedKeys(InRow(env, row), node))
    decreases Size(node), 1, 3
  {
    hide Bounded, WalkSlot, WalkChildren;
    var none: seq<string> := [];
    assert ["body"] + none + ["children"] == ["body", "children"];
    AroundChildren(env, node, row, ["body"], none);
    SlotsOfOne(env, node, "body", row);
    var both := SlotsOf(env, node, ["body"], row) + WalkChildren(Check, env, ReadChildren(node), row);
    assert both + SlotsOf(env, node, none, row) == both;
  }

  lemma {:induction false} RegionsBounded(env: Env, node: Node, row: Option<Row>)
    requires Flat(node)
    ensures Bounded(env, Regions(Check, env, node, row), BoundOf(row),
                    SlottedKeys(InRow(env, row), node))
    decreases Size(node), 1, 8
  {
    hide Bounded, WalkSlot, WalkChildren, SlotsOf;
    var first := ["header", "toolbar", "body"];
    var w, f, a := WalkChildren(Check, env, ReadChildren(node), row), WalkSlot(Check, env, node, "footer", row), WalkSlot(Check, env, node, "actions", row);
    SlotsOfThree(env, node, "header", "toolbar", "body", row);
    if !HasSlot(node, "body") && ReadChildren(node) == [] {
      var last := ["empty", "footer", "actions"];
      assert first + last + ["children"] == ["header", "toolbar", "body", "empty", "footer", "actions", "children"];
      AroundChildren(env, node, row, first, last);
      SlotsOfThree(env, node, "empty", "footer", "actions", row);
      Regroup(SlotsOf(env, node, first, row) + w, WalkSlot(Check, env, node, "empty", row), f, a);
    } else {
      var last := ["footer", "actions"];
      assert first + last + ["children"] == ["header", "toolbar", "body", "footer", "actions", "children"];
      AroundChildren(env, node, row, first, last);
      SlotsOfTwo(env, node, "footer", "actions", row);
      Regroup(SlotsOf(env, node, first, row) + w, [], f, a);
    }
  }

  lemma Regroup(a: seq<Mark>, b: seq<Mark>, c: seq<Mark>, d: seq<Mark>)
    ensures a + (b + c + d) == a + b + c + d && a + [] + c + d == a + (c + d)
  {
  }

  lemma {:induction false} ItemsBounded(env: Env, node: Node, row: Option<Row>)
    requires Flat(node)
    ensures Bounded(env, WalkItems(Check, env, node, row), BoundOf(row),
                    SlottedKeys(InRow(env, row), node))
    decreases Size(node), 1, 9
  {
    hide Bounded, WalkChildren, WalkRecords;
    var records := RecordsOf(env, node.records, row);
    if records != [] {
      FlatSlot(node.slots, "item");
      RecordsUnbound(env, ReadSlot(node, "item"), records);
      UnboundIsBounded(env, WalkRecords(Check, env, ReadSlot(node, "item"), records), BoundOf(row),
                       SlottedKeys(InRow(env, row), node));
    } else if ReadChildren(node) != [] {
      OnlyChildren(env, node, row);
    } else {
      OneSlot(env, node, row, "empty");
    }
  }

  /** Rows of a list carry no bound identity, so nothing in them is a descendant. */
  lemma UnboundIsBounded(env: Env, marks: seq<Mark>, bound: Option<string>, keys: multiset<string>)
    requires Derived(env, marks, None)
    ensures Bounded(env, marks, bound, keys)
  {
    UnboundHasNoKeys(env, marks);
  }

  lemma {:induction false} RecordsUnbound(env: Env, children: seq<Child>, records: seq<Record>)
    requires FlatAll(children)
    ensures Derived(env, WalkRecords(Check, env, children, records), None)
    decreases ChildrenSize(children), 3, |records|
  {
    if records != [] {
      ChildrenBounded(env, children, Some(Row(records[0], None)));
      RecordsUnbound(env, children, records[1..]);
    }
  }

  lemma {:induction false} ChildrenBounded(env: Env, children: seq<Child>, row: Option<Row>)
    requires FlatAll(children)
    ensures Bounded(env, WalkChildren(Check, env, children, row), BoundOf(row), multiset(ChildrenKeys(InRow(env, row), children)))
    decreases ChildrenSize(children), 2, 0
  {
    hide Bounded, WalkNode, Realize, TemplateKeys;
    if children == [] {
      NothingBounded(env, BoundOf(row), multiset{});
    } else {
      var child := children[0];
      var issues_ := IssuesOf(RejectedIn(env, child, row));
      var walked := WalkResolved(Check, env, ResolveChild(env, child, row), ChildSize(child));
      IssuesBounded(env, RejectedIn(env, child, row), BoundOf(row), multiset{});
      ChildBounded(env, child, row);
      ChildrenBounded(env, children[1..], row);
      BoundedConcat(env, issues_, walked, BoundOf(row), multiset{}, multiset(ChildKeys(InRow(env, row), child)));
      BoundedConcat(env, issues_ + walked, WalkChildren(Check, env, children[1..], row), BoundOf(row),
                    multiset{} + multiset(ChildKeys(InRow(env, row), child)), multiset(ChildrenKeys(InRow(env, row), children[1..])));
      assert ChildrenKeys(InRow(env, row), children) == ChildKeys(InRow(env, row), child) + ChildrenKeys(InRow(env, row), children[1..]);
      assert multiset{} + multiset(ChildKeys(InRow(env, row), child)) + multiset(ChildrenKeys(InRow(env, row), children[1..])) == multiset(ChildrenKeys(InRow(env, row), children));
    }
  }

  lemma {:induction false} ChildBounded(env: Env, child: Child, row: Option<Row>)
    requires FlatChild(child)
    ensures Bounded(env, WalkResolved(Check, env, ResolveChild(env, child, row), ChildSize(child)), BoundOf(row), multiset(ChildKeys(InRow(env, row), child)))
    decreases ChildSize(child), 2, 0
  {
    hide Bounded, WalkNode, Realize, TemplateKeys;
    var resolved := ResolveChild(env, child, row);
    NothingBounded(env, BoundOf(row), multiset(ChildKeys(InRow(env, row), child)));
    if resolved != [] {
      assert resolved == ResolveHere(env, child.node, row);
      NodeBounded(env, child.node, row);
      OneResolved(env, resolved[0], ChildSize(child));
    }
  }

  lemma OneResolved(env: Env, r: Resolved, bound: nat)
    requires Size(r.node) < bound
    ensures WalkResolved(Check, env, [r], bound) == WalkNode(Check, env, r.node, r.id, r.row)
  {
    hide WalkNode;
    assert [r][1..] == [];
    assert WalkResolved(Check, env, [r][1..], bound) == [];
  }

  // ---------------------------------------------------------------------------
  // All rows of one bind list.
  // ---------------------------------------------------------------------------

  /** The texts realized from a row binding or a descendant key. */
  function BoundIds(marks: seq<Mark>): seq<string> {
    if marks == [] then []
    else
      (if marks[0].Mark? && (marks[0].source.RowBinding? || marks[0].source.DescendantId?) then [marks[0].id] else [])
      + BoundIds(marks[1..])
  }

  lemma {:induction false} BoundIdsConcat(a: seq<Mark>, b: seq<Mark>)
    ensures BoundIds(a + b) == BoundIds(a) + BoundIds(b)
  {
    if a == [] {
      assert a + b == b;
    } else {
      assert (a + b)[1..] == a[1..] + b;
      BoundIdsConcat(a[1..], b);
    }
  }

  /** The ids of descendants are their keys' derivations, in order. */
  lemma {:induction false} DerivedIds(env: Env, marks: seq<Mark>, bound: string)
    requires Derived(env, marks, Some(bound))
    ensures |BoundIds(marks)| == |MarkKeys(marks)|
    ensures forall k :: 0 <= k < |MarkKeys(marks)| ==> BoundIds(marks)[k] == env.descend(bound, MarkKeys(marks)[k])
  {
    if marks != [] {
      assert forall k :: 0 <= k < |marks[1..]| ==> marks[1..][k] == marks[k + 1];
      DerivedIds(env, marks[1..], bound);
    }
  }

  /** Deriving identities never makes two the same, nor one that is a row's own. */
  ghost predicate Injective(env: Env, rows: seq<string>) {
    && (forall r, k, s, l :: env.descend(r, k) == env.descend(s, l) ==> r == s && k == l)
    && (forall r, k, j :: 0 <= j < |rows| ==> env.descend(r, k) != rows[j])
  }

  /** The identity each record gives its row; all of them text that is not blank. */
  ghost predicate RowIds(records: seq<Record>, path: Option<string>, rows: seq<string>) {
    && |rows| == |records|
    && forall k :: 0 <= k < |rows| ==> RowIdentity(path, Some(Row(records[k], None))) == Some(rows[k])
  }

  /** An id is the row's, or derived from it. */
  ghost predicate OfRow(env: Env, id: string, row: string) { id == row || exists k :: id == env.descend(row, k) }

  function RowWalk(env: Env, item: Node, record: Record, rowId: string): seq<Mark> {
    WalkNode(Check, env, item, Some(rowId), Some(Row(record, Some(rowId))))
  }

  /** The descendant keys one row realizes. */
  function RealizedKeys(env: Env, item: Node, record: Record, rowId: string): seq<string> {
    MarkKeys(RowWalk(env, item, record, rowId))
  }

  /** The identities of one row are distinct exactly when it realizes no key twice. */
  lemma OneRow(env: Env, item: Node, record: Record, rowId: string)
    requires item.id.RowBinding? && Flat(item) && Injective(env, [rowId]) && rowId != ""
    ensures var ids := BoundIds(RowWalk(env, item, record, rowId));
      && (Distinct(ids) <==> Distinct(RealizedKeys(env, item, record, rowId)))
      && forall k :: 0 <= k < |ids| ==> OfRow(env, ids[k], rowId)
    ensures multiset(RealizedKeys(env, item, record, rowId))
      <= multiset(TemplateKeys(InRow(env, Some(Row(record, Some(rowId)))), item))
  {
    hide RowWalk, InnerKeys, Injective, OfRow, Distinct, MarkKeys, BoundIds, Derived, TemplateKeys, OwnKeys;
    var row := Some(Row(record, Some(rowId)));
    var inside := InsideRow(env, item, row);
    RowParts(env, item, record, rowId);
    InsideRowBounded(env, item, row);
    KeysAre(InRow(env, row), item);
    DerivedIds(env, inside, rowId);
    RowThenDerived(env, rowId, MarkKeys(inside), BoundIds(inside));
  }

  function InsideRow(env: Env, item: Node, row: Option<Row>): seq<Mark> {
    if Supported(env, item) then Inside(Check, env, item, row) else []
  }

  lemma InsideRowBounded(env: Env, item: Node, row: Option<Row>)
    requires Flat(item)
    ensures Derived(env, InsideRow(env, item, row), BoundOf(row))
    ensures multiset(MarkKeys(InsideRow(env, item, row))) <= InnerKeys(InRow(env, row), item)
  {
    hide Inside, InnerKeys;
    if Supported(env, item) { InsideBounded(env, item, row); }
  }

  /** The row's own identity, then what is inside. */
  lemma RowParts(env: Env, item: Node, record: Record, rowId: string)
    requires item.id.RowBinding? && rowId != ""
    ensures var inside := InsideRow(env, item, Some(Row(record, Some(rowId))));
      && BoundIds(RowWalk(env, item, record, rowId)) == [rowId] + BoundIds(inside)
      && RealizedKeys(env, item, record, rowId) == MarkKeys(inside)
  {
    hide Inside, MarkKeys, BoundIds;
    var own: seq<Mark> := [Mark(rowId, item.id)];
    var inside := InsideRow(env, item, Some(Row(record, Some(rowId))));
    RowMark(own[0]);
    BoundIdsConcat(own, inside);
    MarkKeysConcat(own, inside);
    assert [] + MarkKeys(inside) == MarkKeys(inside);
    assert own + [] == own;
  }

  lemma RowMark(mark: Mark)
    requires mark.Mark? && mark.source.RowBinding?
    ensures BoundIds([mark]) == [mark.id] && MarkKeys([mark]) == []
  {
    assert [mark][1..] == [];
  }

  lemma RowThenDerived(env: Env, rowId: string, keys: seq<string>, ids: seq<string>)
    requires |ids| == |keys| && Injective(env, [rowId])
    requires forall k :: 0 <= k < |keys| ==> ids[k] == env.descend(rowId, keys[k])
    ensures Distinct([rowId] + ids) <==> Distinct(keys)
    ensures forall k :: 0 <= k < |[rowId] + ids| ==> OfRow(env, ([rowId] + ids)[k], rowId)
  {
    var all := [rowId] + ids;
    assert [rowId][0] == rowId && forall k :: 0 < k < |all| ==> all[k] == ids[k - 1];
    if Distinct(all) {
      forall j, k | 0 <= j < k < |keys| ensures keys[j] != keys[k] { assert all[j + 1] != all[k + 1]; }
    }
  }

  function AllRows(env: Env, item: Node, records: seq<Record>, bound: nat): seq<Mark>
    requires Size(item) < bound
  {
    WalkResolved(Check, env, ResolveRows(env, item, records), bound)
  }

  ghost predicate KeysOnce(env: Env, item: Node, records: seq<Record>, rows: seq<string>)
    requires |rows| == |records|
  {
    forall k :: 0 <= k < |rows| ==> Distinct(RealizedKeys(env, item, records[k], rows[k]))
  }

  /** For every template without nested bind lists: if the rows' identities are distinct and not blank, and
      deriving is injective and avoids them, then all row and descendant identities the bind list realizes are
      different from each other exactly when no row realizes a descendant key twice. */
  lemma {:induction false} BindListDistinctIff(env: Env, item: Node, records: seq<Record>, rows: seq<string>, bound: nat)
    requires item.id.RowBinding? && Flat(item) && Size(item) < bound
    requires RowIds(records, item.id.path, rows) && Distinct(rows) && Injective(env, rows)
    ensures Distinct(BoundIds(AllRows(env, item, records, bound))) <==> KeysOnce(env, item, records, rows)
    ensures forall x :: x in BoundIds(AllRows(env, item, records, bound)) ==>
      exists k :: 0 <= k < |rows| && OfRow(env, x, rows[k])
    decreases |records|
  {
    hide WalkNode, Flat, OfRow, RealizedKeys;
    if records != [] {
      assert RowIdentity(item.id.path, Some(Row(records[0], None))) == Some(rows[0]);
      NotBlank(item.id.path, Some(Row(records[0], None)));
      RestOfRows(env, records, item.id.path, rows);
      BindListDistinctIff(env, item, records[1..], rows[1..], bound);
      OneRow(env, item, records[0], rows[0]);
      FirstRow(env, item, records, rows[0], bound);
      var a, b := BoundIds(RowWalk(env, item, records[0], rows[0])), BoundIds(AllRows(env, item, records[1..], bound));
      Apart(env, a, b, rows);
      assert KeysOnce(env, item, records, rows) <==>
        Distinct(RealizedKeys(env, item, records[0], rows[0])) && KeysOnce(env, item, records[1..], rows[1..]) by {
        KeysOnceSplits(env, item, records, rows);
      }
    }
  }

  lemma KeysOnceSplits(env: Env, item: Node, records: seq<Record>, rows: seq<string>)
    requires |rows| == |records| && rows != []
    ensures KeysOnce(env, item, records, rows) <==>
      Distinct(RealizedKeys(env, item, records[0], rows[0])) && KeysOnce(env, item, records[1..], rows[1..])
  {
    hide RealizedKeys, Distinct;
    if Distinct(RealizedKeys(env, item, records[0], rows[0])) && KeysOnce(env, item, records[1..], rows[1..]) {
      forall k | 0 <= k < |rows| ensures Distinct(RealizedKeys(env, item, records[k], rows[k])) {
        if k > 0 { assert records[k] == records[1..][k - 1] && rows[k] == rows[1..][k - 1]; }
      }
    }
    if KeysOnce(env, item, records, rows) {
      forall k | 0 <= k < |rows[1..]| ensures Distinct(RealizedKeys(env, item, records[1..][k], rows[1..][k])) {
        assert records[k + 1] == records[1..][k] && rows[k + 1] == rows[1..][k];
      }
    }
  }

  lemma FirstRow(env: Env, item: Node, records: seq<Record>, rowId: string, bound: nat)
    requires item.id.RowBinding? && Size(item) < bound && records != []
    requires RowIdentity(item.id.path, Some(Row(records[0], None))) == Some(rowId)
    ensures BoundIds(AllRows(env, item, records, bound))
      == BoundIds(RowWalk(env, item, records[0], rowId)) + BoundIds(AllRows(env, item, records[1..], bound))
  {
    hide WalkNode, RowIdentity;
    var first := Resolved(item, Some(rowId), Some(Row(records[0], Some(rowId))));
    var rest := ResolveRows(env, item, records[1..]);
    assert ResolveRows(env, item, records) == [first] + rest;
    assert ([first] + rest)[1..] == rest;
    BoundIdsConcat(RowWalk(env, item, records[0], rowId), AllRows(env, item, records[1..], bound));
  }

  /** So it suffices that in every row the template's keys, those in the empty states of its tables included,
      are used once each. */
  lemma BindListKeysSuffice(env: Env, item: Node, records: seq<Record>, rows: seq<string>, bound: nat)
    requires item.id.RowBinding? && Flat(item) && Size(item) < bound
    requires RowIds(records, item.id.path, rows) && Distinct(rows) && Injective(env, rows)
    requires forall k :: 0 <= k < |rows| ==> Distinct(TemplateKeys(InRow(env, Some(Row(records[k], Some(rows[k])))), item))
    ensures Distinct(BoundIds(AllRows(env, item, records, bound)))
  {
    hide TemplateKeys, RealizedKeys;
    BindListDistinctIff(env, item, records, rows, bound);
    forall k | 0 <= k < |rows| ensures Distinct(RealizedKeys(env, item, records[k], rows[k])) {
      NotBlank(item.id.path, Some(Row(records[k], None)));
      assert RowIdentity(item.id.path, Some(Row(records[k], None))) == Some(rows[k]);
      OneOfRows(env, rows, k);
      OneRow(env, item, records[k], rows[k]);
      DistinctWithin(RealizedKeys(env, item, records[k], rows[k]), TemplateKeys(InRow(env, Some(Row(records[k], Some(rows[k])))), item));
    }
  }

  lemma OneOfRows(env: Env, rows: seq<string>, k: nat)
    requires k < |rows| && Injective(env, rows)
    ensures Injective(env, [rows[k]])
  {
  }

  /** If the authored check accepts a template whose tables have no empty state, that is so. */
  lemma BindListIdsDistinct(env: Env, item: Node, records: seq<Record>, rows: seq<string>, bound: nat)
    requires item.id.RowBinding? && Flat(item) && Bare(item) && CleanBindList(item) && Size(item) < bound
    requires RowIds(records, item.id.path, rows) && Distinct(rows) && Injective(env, rows)
    ensures Distinct(BoundIds(AllRows(env, item, records, bound)))
  {
    hide TemplateKeys, Flat, Bare, TemplateInvalid;
    NotRepeated(TemplateKeys(Authored, item));
    forall k | 0 <= k < |rows| ensures Distinct(TemplateKeys(InRow(env, Some(Row(records[k], Some(rows[k])))), item)) {
      BareKeys(InRow(env, Some(Row(records[k], Some(rows[k])))), item);
    }
    BindListKeysSuffice(env, item, records, rows, bound);
  }

  /** No table has an empty state. */
  predicate Bare(node: Node) { node.emptyState.None? && BareAll(node.children) && BareSlots(node.slots) }

  predicate BareChild(child: Child) { !child.BindList? ==> Bare(child.node) }

  predicate BareAll(children: seq<Child>) { children == [] || (BareChild(children[0]) && BareAll(children[1..])) }

  predicate BareSlots(slots: seq<Slot>) { slots == [] || (BareAll(slots[0].children) && BareSlots(slots[1..])) }

  lemma {:induction false} BareKeys(d: Sight, node: Node)
    requires Bare(node)
    ensures TemplateKeys(d, node) == TemplateKeys(Authored, node)
    decreases Size(node)
  {
    BareChildrenKeys(d, node.children);
    BareSlotsKeys(d, node.slots);
  }

  lemma {:induction false} BareChildrenKeys(d: Sight, children: seq<Child>)
    requires BareAll(children)
    ensures ChildrenKeys(d, children) == ChildrenKeys(Authored, children)
    decreases ChildrenSize(children)
  {
    if children != [] {
      if !children[0].BindList? {
        InChild(children[0]);
        BareKeys(d, children[0].node);
      }
      BareChildrenKeys(d, children[1..]);
    }
  }

  lemma {:induction false} BareSlotsKeys(d: Sight, slots: seq<Slot>)
    requires BareSlots(slots)
    ensures SlotsKeys(d, slots) == SlotsKeys(Authored, slots)
    decreases SlotsSize(slots)
  {
    if slots != [] {
      BareChildrenKeys(d, slots[0].children);
      BareSlotsKeys(d, slots[1..]);
    }
  }

  lemma NotBlank(path: Option<string>, row: Option<Row>)
    requires RowIdentity(path, row).Some?
    ensures RowIdentity(path, row).value != ""
  {
    assert Blank("");
  }

  lemma RestOfRows(env: Env, records: seq<Record>, path: Option<string>, rows: seq<string>)
    requires records != [] && RowIds(records, path, rows) && Distinct(rows) && Injective(env, rows)
    ensures RowIds(records[1..], path, rows[1..]) && Distinct(rows[1..]) && Injective(env, rows[1..]) && Injective(env, [rows[0]])
  {
    assert forall k :: 0 <= k < |rows[1..]| ==> rows[1..][k] == rows[k + 1] && records[1..][k] == records[k + 1];
  }

  /** Identities of the first row and of later rows never meet. */
  lemma Apart(env: Env, a: seq<string>, b: seq<string>, rows: seq<string>)
    requires rows != [] && Distinct(rows) && Injective(env, rows)
    requires forall k :: 0 <= k < |a| ==> OfRow(env, a[k], rows[0])
    requires forall x :: x in b ==> exists k :: 0 <= k < |rows[1..]| && OfRow(env, x, rows[1..][k])
    ensures Distinct(a + b) <==> Distinct(a) && Distinct(b)
    ensures forall x :: x in a + b ==> exists k :: 0 <= k < |rows| && OfRow(env, x, rows[k])
  {
    hide OfRow, Injective;
    forall x | x in a + b ensures exists k :: 0 <= k < |rows| && OfRow(env, x, rows[k]) {
      if x in b {
        var k :| 0 <= k < |rows[1..]| && OfRow(env, x, rows[1..][k]);
        assert rows[k + 1] == rows[1..][k];
      } else {
        assert OfRow(env, x, rows[0]);
      }
    }
    forall j, k | 0 <= j < |a| && 0 <= k < |b| ensures a[j] != b[k] {
      assert b[k] in b;
      var n :| 0 <= n < |rows[1..]| && OfRow(env, b[k], rows[1..][n]);
      assert rows[n + 1] == rows[1..][n] && rows[n + 1] != rows[0];
      Differ(env, a[j], rows, 0, b[k], n + 1);
    }
    DistinctJoins(a, b);
  }

  lemma DistinctJoins(a: seq<string>, b: seq<string>)
    requires forall j, k :: 0 <= j < |a| && 0 <= k < |b| ==> a[j] != b[k]
    ensures Distinct(a + b) <==> Distinct(a) && Distinct(b)
  {
    assert forall j :: 0 <= j < |a| ==> a[j] == (a + b)[j];
    assert forall k :: 0 <= k < |b| ==> b[k] == (a + b)[|a| + k];
  }

  lemma Differ(env: Env, x: string, rows: seq<string>, j: nat, y: string, k: nat)
    requires j < |rows| && k < |rows| && rows[j] != rows[k] && Injective(env, rows)
    requires OfRow(env, x, rows[j]) && OfRow(env, y, rows[k])
    ensures x != y
  {
  }

  // ---------------------------------------------------------------------------
  // Where it fails: the authored check never looks into the empty state of a table.
  // ---------------------------------------------------------------------------

  function KeyedLeaf(key: string): Node { LeafNode(DescendantId(Some(key))) }

  function KeyedStack(j: string, k: string): Node {
    LeafNode(NoId).(kind := Stack, children := [Plain(KeyedLeaf(j)), Plain(KeyedLeaf(k))])
  }

  /** A row template that is a table without rows; its empty state holds two descendants. */
  function EmptyTable(j: string, k: string): Node {
    LeafNode(RowBinding(Some("@/id"))).(kind := Table, emptyState := Some(KeyedStack(j, k)))
  }

  /** The authored check accepts the template whatever the keys; the realized identities are distinct
      exactly when the keys differ. */
  lemma EmptyStateKeysUnchecked(env: Env, record: Record, rowId: string, j: string, k: string)
    requires Injective(env, [rowId]) && rowId != "" && !Blank(j) && !Blank(k)
    requires env.descend(rowId, j) != "" && env.descend(rowId, k) != ""
    ensures CleanBindList(EmptyTable(j, k))
    ensures Distinct(BoundIds(WalkNode(Check, env, EmptyTable(j, k), Some(rowId), Some(Row(record, Some(rowId)))))) <==> j != k
  {
    hide WalkNode, CleanBindList;
    EmptyTableClean(j, k);
    EmptyTableWalk(env, j, k, Some(Row(record, Some(rowId))), rowId);
    ThreeIds(env, rowId, j, k);
    assert [rowId][0] == rowId;
    var ids := [rowId, env.descend(rowId, j), env.descend(rowId, k)];
    assert ids[0] != ids[1] && ids[0] != ids[2] && (ids[1] == ids[2] <==> j == k);
  }

  lemma EmptyTableClean(j: string, k: string)
    ensures CleanBindList(EmptyTable(j, k))
  {
    var item := EmptyTable(j, k);
    assert TemplateKeys(Authored, item) == [] + ChildrenKeys(Authored, []) + SlotsKeys(Authored, []) + [];
    assert TemplateInvalid(item, true) == [] + InvalidChildren([], true) + InvalidSlots([], true);
  }

  function RowAndTwo(env: Env, rowId: string, j: string, k: string): seq<Mark> {
    [Mark(rowId, RowBinding(Some("@/id"))), Mark(env.descend(rowId, j), DescendantId(Some(j))),
     Mark(env.descend(rowId, k), DescendantId(Some(k)))]
  }

  lemma ThreeIds(env: Env, rowId: string, j: string, k: string)
    ensures BoundIds(RowAndTwo(env, rowId, j, k)) == [rowId, env.descend(rowId, j), env.descend(rowId, k)]
  {
    var marks := RowAndTwo(env, rowId, j, k);
    assert marks == [marks[0]] + ([marks[1]] + [marks[2]]);
    BoundIdsConcat([marks[0]], [marks[1]] + [marks[2]]);
    BoundIdsConcat([marks[1]], [marks[2]]);
    OneId(marks[0]);
    OneId(marks[1]);
    OneId(marks[2]);
  }

  lemma OneId(mark: Mark)
    requires mark.Mark? && (mark.source.RowBinding? || mark.source.DescendantId?)
    ensures BoundIds([mark]) == [mark.id]
  {
    assert [mark][1..] == [];
  }

  lemma EmptyTableWalk(env: Env, j: string, k: string, row: Option<Row>, rowId: string)
    requires row.Some? && row.value.bound == Some(rowId) && rowId != "" && !Blank(j) && !Blank(k)
    requires env.descend(rowId, j) != "" && env.descend(rowId, k) != ""
    ensures WalkNode(Check, env, EmptyTable(j, k), Some(rowId), row) == RowAndTwo(env, rowId, j, k)
  {
    hide WalkChildren, ResolveNode;
    ResolvedStack(env, j, k, row);
    TwoLeaves(env, j, k, row, rowId);
    assert Supported(env, EmptyTable(j, k)) && Supported(env, KeyedStack(j, k));
    assert WalkNode(Check, env, KeyedStack(j, k), None, row) == WalkChildren(Check, env, ReadChildren(KeyedStack(j, k)), row);
    assert Inside(Check, env, EmptyTable(j, k), row) == WalkNode(Check, env, KeyedStack(j, k), None, row);
  }

  lemma ResolvedStack(env: Env, j: string, k: string, row: Option<Row>)
    ensures ResolveNode(env, KeyedStack(j, k), row) == KeyedStack(j, k)
  {
    var a, b := Plain(KeyedLeaf(j)), Plain(KeyedLeaf(k));
    ResolvedLeaf(env, j, row);
    ResolvedLeaf(env, k, row);
    assert [a, b][1..] == [b] && [b][1..] == [];
    assert ResolveAll(env, [b], row) == [b];
    assert ResolveAll(env, [a, b], row) == [a, b];
  }

  lemma ResolvedLeaf(env: Env, key: string, row: Option<Row>)
    ensures ResolveInChild(env, Plain(KeyedLeaf(key)), row) == Plain(KeyedLeaf(key))
  {
    assert ResolveNode(env, KeyedLeaf(key), row) == KeyedLeaf(key);
  }

  lemma TwoLeaves(env: Env, j: string, k: string, row: Option<Row>, rowId: string)
    requires row.Some? && row.value.bound == Some(rowId) && rowId != "" && !Blank(j) && !Blank(k)
    requires env.descend(rowId, j) != "" && env.descend(rowId, k) != ""
    ensures WalkChildren(Check, env, ReadChildren(KeyedStack(j, k)), row) == RowAndTwo(env, rowId, j, k)[1..]
  {
    hide WalkResolved, IssuesOf, ResolveChild, RejectedIn;
    var a, b := Plain(KeyedLeaf(j)), Plain(KeyedLeaf(k));
    var none: seq<Child> := [];
    assert ReadChildren(KeyedStack(j, k)) == [a, b];
    OneLeaf(env, j, row, rowId);
    OneLeaf(env, k, row, rowId);
    assert [a, b][1..] == [b] && [b][1..] == [];
    assert WalkChildren(Check, env, none, row) == [];
    assert WalkChildren(Check, env, [b], row) == [Mark(env.descend(rowId, k), DescendantId(Some(k)))];
  }

  lemma OneLeaf(env: Env, key: string, row: Option<Row>, rowId: string)
    requires row.Some? && row.value.bound == Some(rowId) && rowId != "" && !Blank(key) && env.descend(rowId, key) != ""
    ensures var leaf := Plain(KeyedLeaf(key));
      && IssuesOf(RejectedIn(env, leaf, row)) == []
      && WalkResolved(Check, env, ResolveChild(env, leaf, row), ChildSize(leaf)) == [Mark(env.descend(rowId, key), DescendantId(Some(key)))]
  {
    var node := KeyedLeaf(key);
    var resolved := Resolved(node, Some(env.descend(rowId, key)), row);
    assert ResolveChild(env, Plain(node), row) == [resolved];
    OneResolved(env, resolved, ChildSize(Plain(node)));
  }
}
