/** The two traversals of a realized tree, the identity check and the renderer, and the theorem that
    ties them: what the renderer emits is what the check counts, up to what form controls add and hide. */
module UiNodeIdentity {
  import opened Wrappers
  import opened UiNodes

  /** What a traversal notes: an identity emitted or counted, with the authored one it realizes, or an
      identity that could not be realized. Only the check notes the latter. */
  datatype Mark = Mark(id: string, source: Id) | Issue(source: Id)

  /** The check and the renderer; and what relates them: the identities a node shows, those of them that the
      controls of form fields add, and those the check counts though nothing shows them. */
  datatype Mode = Check | Render | Shown | Added | Hidden

  /** The node's own identity. A blank text is emitted but never counted, so it is no mark. */
  function Own(node: Node, id: Option<string>): seq<Mark> {
    if id.Some? && id.value != "" then [Mark(id.value, node.id)] else []
  }

  function IssuesOf(rejected: seq<Id>): (issues: seq<Mark>)
    ensures |issues| == |rejected|
  {
    seq(|rejected|, k requires 0 <= k < |rejected| => Issue(rejected[k]))
  }

  // ---------------------------------------------------------------------------
  // The traversals. `Inside` lists, primitive by primitive, the children visited.
  // ---------------------------------------------------------------------------

  function WalkNode(mode: Mode, env: Env, node: Node, id: Option<string>, row: Option<Row>): seq<Mark>
    decreases Size(node), 3, 0
  {
    if !Supported(env, node) then (if mode.Added? || mode.Hidden? then [] else Own(node, id))
    else if mode.Check? then Own(node, id) + Inside(Check, env, node, row)
    else if node.kind.SelectOption? then (if mode.Hidden? then Own(node, id) else [])
    else if node.kind.FormField? && node.control.Some? then WalkControl(mode, env, node, id, row)
    else
      match mode
      case Hidden => if node.kind.Select? then WalkSlot(Check, env, node, "options", row) else Inside(Hidden, env, node, row)
      case Added => if node.kind.Select? then [] else Inside(Added, env, node, row)
      case Shown => if node.kind.Select? then Own(node, id) else Own(node, id) + Inside(Shown, env, node, row)
      case _ => Own(node, id) + RenderInside(env, node, row)
  }

  /** The control of a form field: the props of its schema, the identity of the field, no children. */
  function ControlOf(node: Node): (control: Node)
    requires node.control.Some?
    ensures Size(control) < Size(node)
  {
    node.control.value.(id := node.id, children := [], slots := [])
  }

  /** A form field renders the control its schema names, under its own identity. What the control adds is what
      it shows inside; what it hides is the field's identity, if it is an option in the end. */
  function WalkControl(mode: Mode, env: Env, node: Node, id: Option<string>, row: Option<Row>): seq<Mark>
    requires node.control.Some?
    decreases Size(node), 2, 0
  {
    var control := ControlOf(node);
    var field := control.kind.FormField? && control.control.Some?;
    match mode
    case Hidden => if control.kind.SelectOption? || field then WalkNode(Hidden, env, control, id, row) else []
    case Added =>
      if !Supported(env, control) || control.kind.SelectOption? || control.kind.Select? then []
      else if field then WalkNode(Added, env, control, id, row)
      else Inside(Shown, env, control, row)
    case _ => WalkNode(mode, env, control, id, row)
  }

  function Inside(mode: Mode, env: Env, node: Node, row: Option<Row>): seq<Mark>
    decreases Size(node), 2, 0
  {
    match node.kind
    case Stack => WalkChildren(mode, env, ReadChildren(node), row)
    case FormSection => WalkChildren(mode, env, ReadChildren(node), row)
    case Inline => WalkChildren(mode, env, ReadChildren(node), row)
    case MetricGrid => WalkChildren(mode, env, ReadChildren(node), row)
    case Form => WalkChildren(mode, env, ReadChildren(node), row)
    case Section => Regions(mode, env, node, row)
    case Panel => Regions(mode, env, node, row)
    case Toolbar =>
      WalkSlot(mode, env, node, "commands", row) + WalkSlot(mode, env, node, "filters", row)
      + WalkSlot(mode, env, node, "search", row) + WalkSlot(mode, env, node, "actions", row)
      + WalkChildren(mode, env, ReadChildren(node), row)
    case EmptyState => WalkSlot(mode, env, node, "actions", row)
    case ItemList => WalkItems(mode, env, node, row)
    case ListItem =>
      WalkSlot(mode, env, node, "title", row) + WalkSlot(mode, env, node, "subtitle", row)
      + WalkSlot(mode, env, node, "meta", row) + WalkSlot(mode, env, node, "actions", row)
      + WalkChildren(mode, env, ReadChildren(node), row)
    case Select => WalkSlot(mode, env, node, "options", row)
    case Dialog => WalkSlot(mode, env, node, "body", row) + WalkChildren(mode, env, ReadChildren(node), row)
    case Table => WalkEmptyState(mode, env, node, row)
    case _ => []
  }

  function Regions(mode: Mode, env: Env, node: Node, row: Option<Row>): seq<Mark>
    decreases Size(node), 1, 0
  {
    WalkSlot(mode, env, node, "header", row) + WalkSlot(mode, env, node, "toolbar", row)
    + WalkSlot(mode, env, node, "body", row) + WalkChildren(mode, env, ReadChildren(node), row)
    + (if !HasSlot(node, "body") && ReadChildren(node) == [] then WalkSlot(mode, env, node, "empty", row) else [])
    + WalkSlot(mode, env, node, "footer", row) + WalkSlot(mode, env, node, "actions", row)
  }

  function RenderInside(env: Env, node: Node, row: Option<Row>): seq<Mark>
    decreases Size(node), 2, 0
  {
    match node.kind
    case Stack => WalkChildren(Render, env, ReadChildren(node), row)
    case FormSection => WalkChildren(Render, env, ReadChildren(node), row)
    case Inline => WalkChildren(Render, env, ReadChildren(node), row)
    case MetricGrid => WalkChildren(Render, env, ReadChildren(node), row)
    case Form => WalkChildren(Render, env, ReadChildren(node), row)
    case Section => RenderRegions(env, node, row)
    case Panel => RenderRegions(env, node, row)
    case Toolbar =>
      Region(env, node, "commands", row) + Region(env, node, "filters", row) + Region(env, node, "search", row)
      + Region(env, node, "actions", row) + WalkChildren(Render, env, ReadChildren(node), row)
    case EmptyState => Region(env, node, "actions", row)
    case ItemList => WalkItems(Render, env, node, row)
    case ListItem =>
      WalkSlot(Render, env, node, "title", row) + Region(env, node, "subtitle", row)
      + WalkChildren(Render, env, ReadChildren(node), row)
      + Region(env, node, "meta", row) + Region(env, node, "actions", row)
    case Dialog => WalkSlot(Render, env, node, "body", row) + WalkChildren(Render, env, ReadChildren(node), row)
    case Table => WalkEmptyState(Render, env, node, row)
    case _ => []
  }

  function RenderRegions(env: Env, node: Node, row: Option<Row>): seq<Mark>
    decreases Size(node), 1, 1
  {
    var hasBody := HasSlot(node, "body") || ReadChildren(node) != [];
    Region(env, node, "header", row) + Region(env, node, "toolbar", row)
    + Region(env, node, "body", row) + WalkChildren(Render, env, ReadChildren(node), row)
    + (if !hasBody then Region(env, node, "empty", row) else [])
    + Region(env, node, "footer", row) + Region(env, node, "actions", row)
  }

  /** A slot rendered only when it has children. */
  function Region(env: Env, node: Node, name: string, row: Option<Row>): seq<Mark>
    decreases Size(node), 1, 0
  {
    if HasSlot(node, name) then WalkSlot(Render, env, node, name, row) else []
  }

  function WalkSlot(mode: Mode, env: Env, node: Node, name: string, row: Option<Row>): seq<Mark>
    decreases Size(node), 0, 0
  {
    WalkChildren(mode, env, ReadSlot(node, name), row)
  }

  /** A list shows its records, else its children, else its empty slot. */
  function WalkItems(mode: Mode, env: Env, node: Node, row: Option<Row>): seq<Mark>
    decreases Size(node), 1, 0
  {
    var records := RecordsOf(env, node.records, row);
    if records != [] then WalkRecords(mode, env, ReadSlot(node, "item"), records)
    else if ReadChildren(node) != [] then WalkChildren(mode, env, ReadChildren(node), row)
    else WalkSlot(mode, env, node, "empty", row)
  }

  /** A table without rows shows its empty state, whose bindings are resolved with its props. */
  function WalkEmptyState(mode: Mode, env: Env, node: Node, row: Option<Row>): seq<Mark>
    decreases Size(node), 1, 0
  {
    if RecordsOf(env, node.records, row) != [] || node.emptyState.None? then []
    else
      var shown := ResolveNode(env, node.emptyState.value, row);
      var realization := Realize(env, shown.id, row, false);
      ResolveNodeSize(env, node.emptyState.value, row);
      if realization.Realized? then WalkNode(mode, env, shown, realization.id, row)
      else if mode.Check? then IssuesOf(RejectedHere(env, shown, row)) else []
  }

  function WalkRecords(mode: Mode, env: Env, children: seq<Child>, records: seq<Record>): seq<Mark>
    decreases ChildrenSize(children), 3, |records|
  {
    if records == [] then []
    else WalkChildren(mode, env, children, Some(Row(records[0], None))) + WalkRecords(mode, env, children, records[1..])
  }

  function WalkChildren(mode: Mode, env: Env, children: seq<Child>, row: Option<Row>): seq<Mark>
    decreases ChildrenSize(children), 2, 0
  {
    if children == [] then []
    else
      (if mode.Check? then IssuesOf(RejectedIn(env, children[0], row)) else [])
      + WalkResolved(mode, env, ResolveChild(env, children[0], row), ChildSize(children[0]))
      + WalkChildren(mode, env, children[1..], row)
  }

  function WalkResolved(mode: Mode, env: Env, resolved: seq<Resolved>, bound: nat): seq<Mark>
    requires forall k :: 0 <= k < |resolved| ==> Size(resolved[k].node) < bound
    decreases bound, 1, |resolved|
  {
    if resolved == [] then []
    else
      WalkNode(mode, env, resolved[0].node, resolved[0].id, resolved[0].row)
      + WalkResolved(mode, env, resolved[1..], bound)
  }

  // ---------------------------------------------------------------------------
  // Several slots in a row.
  // ---------------------------------------------------------------------------

  /** The marks of the slots named, in order. */
  ghost function SlotsOf(env: Env, node: Node, names: seq<string>, row: Option<Row>): seq<Mark> {
    if names == [] then []
    else SlotsOf(env, node, names[..|names| - 1], row) + WalkSlot(Check, env, node, names[|names| - 1], row)
  }

  lemma SlotsOfMore(env: Env, node: Node, names: seq<string>, name: string, row: Option<Row>)
    ensures SlotsOf(env, node, names + [name], row) == SlotsOf(env, node, names, row) + WalkSlot(Check, env, node, name, row)
  {
    hide WalkSlot;
    assert (names + [name])[..|names|] == names;
  }

  lemma SlotsOfOne(env: Env, node: Node, name: string, row: Option<Row>)
    ensures SlotsOf(env, node, [], row) == []
    ensures SlotsOf(env, node, [name], row) == WalkSlot(Check, env, node, name, row)
  {
    hide WalkSlot;
    assert [name][..0] == [];
  }

  lemma SlotsOfTwo(env: Env, node: Node, a: string, b: string, row: Option<Row>)
    ensures SlotsOf(env, node, [a, b], row) == WalkSlot(Check, env, node, a, row) + WalkSlot(Check, env, node, b, row)
  {
    hide WalkSlot, SlotsOf;
    SlotsOfOne(env, node, a, row);
    SlotsOfMore(env, node, [a], b, row);
    assert [a] + [b] == [a, b];
  }

  lemma SlotsOfThree(env: Env, node: Node, a: string, b: string, c: string, row: Option<Row>)
    ensures SlotsOf(env, node, [a, b, c], row)
      == WalkSlot(Check, env, node, a, row) + WalkSlot(Check, env, node, b, row) + WalkSlot(Check, env, node, c, row)
  {
    hide WalkSlot, SlotsOf;
    SlotsOfMore(env, node, [a, b], c, row);
    assert [a, b] + [c] == [a, b, c];
    SlotsOfTwo(env, node, a, b, row);
  }

  lemma SlotsOfFour(env: Env, node: Node, a: string, b: string, c: string, d: string, row: Option<Row>)
    ensures SlotsOf(env, node, [a, b, c, d], row)
      == WalkSlot(Check, env, node, a, row) + WalkSlot(Check, env, node, b, row) + WalkSlot(Check, env, node, c, row)
         + WalkSlot(Check, env, node, d, row)
  {
    hide WalkSlot, SlotsOf;
    SlotsOfMore(env, node, [a, b, c], d, row);
    assert [a, b, c] + [d] == [a, b, c, d];
    SlotsOfThree(env, node, a, b, c, row);
  }

  // ---------------------------------------------------------------------------
  // Distinct identities.
  // ---------------------------------------------------------------------------

  /** The texts noted, in order. */
  function Ids(marks: seq<Mark>): seq<string> {
    if marks == [] then []
    else (if marks[0].Mark? then [marks[0].id] else []) + Ids(marks[1..])
  }

  /** The identities that could not be realized, in order. */
  function IssuesIn(marks: seq<Mark>): seq<Id> {
    if marks == [] then []
    else (if marks[0].Issue? then [marks[0].source] else []) + IssuesIn(marks[1..])
  }

  lemma Concats(a: seq<Mark>, b: seq<Mark>)
    ensures Ids(a + b) == Ids(a) + Ids(b) && IssuesIn(a + b) == IssuesIn(a) + IssuesIn(b)
  {
    IdsConcat(a, b);
    IssuesConcat(a, b);
  }

  lemma {:induction false} IdsConcat(a: seq<Mark>, b: seq<Mark>)
    ensures Ids(a + b) == Ids(a) + Ids(b)
  {
    if a == [] {
      assert a + b == b;
    } else {
      var first := if a[0].Mark? then [a[0].id] else [];
      IdsConcat(a[1..], b);
      assert (a + b)[1..] == a[1..] + b;
      assert Ids(a + b) == first + Ids(a[1..] + b);
      assert first + (Ids(a[1..]) + Ids(b)) == (first + Ids(a[1..])) + Ids(b);
    }
  }

  lemma {:induction false} IssuesConcat(a: seq<Mark>, b: seq<Mark>)
    ensures IssuesIn(a + b) == IssuesIn(a) + IssuesIn(b)
  {
    if a == [] {
      assert a + b == b;
    } else {
      var first := if a[0].Issue? then [a[0].source] else [];
      IssuesConcat(a[1..], b);
      assert (a + b)[1..] == a[1..] + b;
      assert IssuesIn(a + b) == first + IssuesIn(a[1..] + b);
      assert first + (IssuesIn(a[1..]) + IssuesIn(b)) == (first + IssuesIn(a[1..])) + IssuesIn(b);
    }
  }

  ghost predicate Distinct(ids: seq<string>) {
    forall j, k :: 0 <= j < k < |ids| ==> ids[j] != ids[k]
  }

  lemma DistinctWithin(a: seq<string>, b: seq<string>)
    requires Distinct(b) && multiset(a) <= multiset(b)
    ensures Distinct(a)
  {
    forall j, k | 0 <= j < k < |a| ensures a[j] != a[k] {
      if a[j] == a[k] {
        Twice(a, j, k);
        Once(b, a[j]);
      }
    }
  }

  lemma Twice(a: seq<string>, j: nat, k: nat)
    requires j < k < |a| && a[j] == a[k]
    ensures multiset(a)[a[j]] >= 2
  {
    assert a == a[..k] + ([a[k]] + a[k + 1..]);
    assert a[..k][j] in multiset(a[..k]);
  }

  lemma {:induction false} Once(b: seq<string>, x: string)
    requires Distinct(b)
    ensures multiset(b)[x] <= 1
  {
    if b != [] {
      assert b == [b[0]] + b[1..];
      Once(b[1..], x);
      if b[0] == x {
        assert x !in b[1..];
      }
    }
  }

  /** Texts are distinct exactly when none is counted twice. */
  lemma CountsDecide(ids: seq<string>)
    ensures Distinct(ids) <==> forall s :: multiset(ids)[s] <= 1
  {
    if Distinct(ids) {
      forall s ensures multiset(ids)[s] <= 1 { Once(ids, s); }
    } else {
      var j, k :| 0 <= j < k < |ids| && ids[j] == ids[k];
      Twice(ids, j, k);
    }
  }

  /** The check passes when no identity was rejected and no text was counted twice. */
  ghost predicate Passes(env: Env, root: Node, id: Option<string>) {
    var marks := WalkNode(Check, env, root, id, None);
    IssuesIn(marks) == [] && Distinct(Ids(marks))
  }

  // ---------------------------------------------------------------------------
  // The five walks of one part of a tree.
  // ---------------------------------------------------------------------------

  ghost function Count(marks: seq<Mark>): multiset<string> { multiset(Ids(marks)) }

  lemma CountConcat(a: seq<Mark>, b: seq<Mark>)
    ensures Count(a + b) == Count(a) + Count(b)
  {
    Concats(a, b);
  }

  lemma CountNothing()
    ensures Count([]) == multiset{}
  {
  }

  datatype Walks = Walks(checked: seq<Mark>, rendered: seq<Mark>, shown: seq<Mark>, added: seq<Mark>, hidden: seq<Mark>)
  {
    function Plus(more: Walks): Walks {
      Walks(checked + more.checked, rendered + more.rendered, shown + more.shown, added + more.added, hidden + more.hidden)
    }

    /** The renderer emits what is shown; that is what the check counts, with what controls add, without what
        is hidden. */
    ghost predicate Even() {
      && Count(rendered) == Count(shown)
      && Count(shown) + Count(hidden) == Count(checked) + Count(added)
      && Count(hidden) <= Count(checked)
    }
  }

  const NO_WALKS := Walks([], [], [], [], [])

  lemma PlusEven(a: Walks, b: Walks)
    requires a.Even() && b.Even()
    ensures a.Plus(b).Even()
  {
    hide Count;
    CountConcat(a.checked, b.checked);
    CountConcat(a.rendered, b.rendered);
    CountConcat(a.shown, b.shown);
    CountConcat(a.added, b.added);
    CountConcat(a.hidden, b.hidden);
    Sums(Count(a.shown), Count(a.hidden), Count(a.checked), Count(a.added),
         Count(b.shown), Count(b.hidden), Count(b.checked), Count(b.added));
  }

  lemma Sums(s: multiset<string>, h: multiset<string>, c: multiset<string>, a: multiset<string>,
             s': multiset<string>, h': multiset<string>, c': multiset<string>, a': multiset<string>)
    requires s + h == c + a && s' + h' == c' + a' && h <= c && h' <= c'
    ensures s + s' + (h + h') == c + c' + (a + a') && h + h' <= c + c'
  {
    assert s + s' + (h + h') == (s + h) + (s' + h');
    assert c + c' + (a + a') == (c + a) + (c' + a');
  }

  lemma NothingEven()
    ensures NO_WALKS.Even()
  {
  }

  /** Rendered in another order. */
  lemma ReorderedEven(a: Walks, b: Walks, c: Walks, w: Walks)
    requires a.Plus(b).Plus(c).Even()
    requires w == a.Plus(b).Plus(c).(rendered := a.rendered + c.rendered + b.rendered)
    ensures w.Even()
  {
    hide Count;
    CountConcat(a.rendered + b.rendered, c.rendered);
    CountConcat(a.rendered, b.rendered);
    CountConcat(a.rendered + c.rendered, b.rendered);
    CountConcat(a.rendered, c.rendered);
  }

  /** One node alone: its own identity is counted and shown, counted and hidden, or counted with what is inside
      it hidden; or it is shown with what its control adds. */
  lemma OwnEven(own: seq<Mark>, inside: seq<Mark>)
    ensures Walks(own, own, own, [], []).Even() && Walks(own, [], [], [], own).Even()
    ensures Walks(own + inside, own, own, [], inside).Even()
  {
    hide Count;
    CountConcat(own, inside);
    CountNothing();
  }

  function NodeWalks(env: Env, node: Node, id: Option<string>, row: Option<Row>): Walks {
    Walks(WalkNode(Check, env, node, id, row), WalkNode(Render, env, node, id, row), WalkNode(Shown, env, node, id, row),
          WalkNode(Added, env, node, id, row), WalkNode(Hidden, env, node, id, row))
  }

  function InsideWalks(env: Env, node: Node, row: Option<Row>): Walks {
    Walks(Inside(Check, env, node, row), RenderInside(env, node, row), Inside(Shown, env, node, row),
          Inside(Added, env, node, row), Inside(Hidden, env, node, row))
  }

  function SlotWalks(env: Env, node: Node, name: string, row: Option<Row>): Walks {
    Walks(WalkSlot(Check, env, node, name, row), Region(env, node, name, row), WalkSlot(Shown, env, node, name, row),
          WalkSlot(Added, env, node, name, row), WalkSlot(Hidden, env, node, name, row))
  }

  function ChildrenWalks(env: Env, children: seq<Child>, row: Option<Row>): Walks {
    Walks(WalkChildren(Check, env, children, row), WalkChildren(Render, env, children, row),
          WalkChildren(Shown, env, children, row), WalkChildren(Added, env, children, row), WalkChildren(Hidden, env, children, row))
  }

  function ResolvedWalks(env: Env, resolved: seq<Resolved>, bound: nat): Walks
    requires forall k :: 0 <= k < |resolved| ==> Size(resolved[k].node) < bound
  {
    Walks(WalkResolved(Check, env, resolved, bound), WalkResolved(Render, env, resolved, bound),
          WalkResolved(Shown, env, resolved, bound), WalkResolved(Added, env, resolved, bound),
          WalkResolved(Hidden, env, resolved, bound))
  }

  function RecordsWalks(env: Env, children: seq<Child>, records: seq<Record>): Walks {
    Walks(WalkRecords(Check, env, children, records), WalkRecords(Render, env, children, records),
          WalkRecords(Shown, env, children, records), WalkRecords(Added, env, children, records),
          WalkRecords(Hidden, env, children, records))
  }

  /** What the renderer emits for any node, what the check counts, and how they differ. */
  lemma {:induction false} NodeEven(env: Env, node: Node, id: Option<string>, row: Option<Row>)
    ensures NodeWalks(env, node, id, row).Even()
    decreases Size(node), 3, 0
  {
    hide Inside, RenderInside, WalkSlot, WalkControl, Walks.Even;
    var own := Own(node, id);
    OwnEven(own, []);
    if !Supported(env, node) {
    } else if node.kind.SelectOption? {
      NothingInside(env, node, row);
      assert own + [] == own;
    } else if node.kind.FormField? && node.control.Some? {
      NothingInside(env, node, row);
      ControlEven(env, node, id, row);
      assert own + [] == own;
    } else if node.kind.Select? {
      SelectEven(env, node, id, row);
    } else {
      InsideEven(env, node, row);
      PlusEven(Walks(own, own, own, [], []), InsideWalks(env, node, row));
      assert [] + Inside(Added, env, node, row) == Inside(Added, env, node, row);
      assert [] + Inside(Hidden, env, node, row) == Inside(Hidden, env, node, row);
    }
  }

  lemma NothingInside(env: Env, node: Node, row: Option<Row>)
    requires node.kind.SelectOption? || node.kind.FormField?
    ensures InsideWalks(env, node, row) == NO_WALKS
  {
  }

  lemma SelectEven(env: Env, node: Node, id: Option<string>, row: Option<Row>)
    requires node.kind.Select? && Supported(env, node)
    ensures NodeWalks(env, node, id, row).Even()
  {
    hide WalkSlot, Walks.Even;
    var own, options := Own(node, id), WalkSlot(Check, env, node, "options", row);
    assert RenderInside(env, node, row) == [] && own + [] == own;
    assert Inside(Check, env, node, row) == options;
    OwnEven(own, options);
  }

  function ControlWalks(env: Env, node: Node, id: Option<string>, row: Option<Row>): Walks
    requires node.control.Some?
  {
    Walks(Own(node, id), WalkControl(Render, env, node, id, row), WalkControl(Shown, env, node, id, row),
          WalkControl(Added, env, node, id, row), WalkControl(Hidden, env, node, id, row))
  }

  /** A form field, seen through the control its schema names. */
  lemma {:induction false} ControlEven(env: Env, node: Node, id: Option<string>, row: Option<Row>)
    requires node.control.Some?
    ensures ControlWalks(env, node, id, row).Even()
    decreases Size(node), 2, 0
  {
    hide Inside, RenderInside, WalkSlot, Walks.Even, WalkNode;
    var control, own := ControlOf(node), Own(node, id);
    NodeEven(env, control, id, row);
    OwnEven(own, []);
    assert Own(control, id) == own && own + [] == own;
    NodeIs(env, control, id, row);
    if Supported(env, control) {
      if control.kind.SelectOption? || control.kind.FormField? {
        NothingInside(env, control, row);
      } else if control.kind.Select? {
        SelectShowsNothing(env, control, row);
      } else {
        InsideEven(env, control, row);
        AddedEven(own, InsideWalks(env, control, row));
      }
    }
  }

  /** What the walks of a node are, but for form fields with a control. */
  lemma NodeIs(env: Env, node: Node, id: Option<string>, row: Option<Row>)
    ensures !Supported(env, node) ==> NodeWalks(env, node, id, row) == Walks(Own(node, id), Own(node, id), Own(node, id), [], [])
    ensures Supported(env, node) ==> WalkNode(Check, env, node, id, row) == Own(node, id) + Inside(Check, env, node, row)
    ensures Supported(env, node) && node.kind.SelectOption? ==>
      NodeWalks(env, node, id, row) == Walks(Own(node, id) + Inside(Check, env, node, row), [], [], [], Own(node, id))
    ensures Supported(env, node) && node.kind.Select? ==>
      && WalkNode(Render, env, node, id, row) == Own(node, id) + RenderInside(env, node, row)
      && WalkNode(Shown, env, node, id, row) == Own(node, id)
    ensures Supported(env, node) && !node.kind.Select? && !node.kind.SelectOption? && !(node.kind.FormField? && node.control.Some?) ==>
      && WalkNode(Render, env, node, id, row) == Own(node, id) + RenderInside(env, node, row)
      && WalkNode(Shown, env, node, id, row) == Own(node, id) + Inside(Shown, env, node, row)
  {
    hide Inside, RenderInside, WalkSlot, WalkControl;
  }

  lemma SelectShowsNothing(env: Env, node: Node, row: Option<Row>)
    requires node.kind.Select?
    ensures RenderInside(env, node, row) == []
  {
  }

  /** A control inside which nothing was counted. */
  lemma AddedEven(own: seq<Mark>, inside: Walks)
    requires inside.Even()
    ensures Walks(own, own + inside.rendered, own + inside.shown, inside.shown, []).Even()
  {
    hide Count;
    CountConcat(own, inside.rendered);
    CountConcat(own, inside.shown);
    CountNothing();
  }

  lemma {:induction false} SlotEven(env: Env, node: Node, name: string, row: Option<Row>)
    ensures SlotWalks(env, node, name, row).Even()
    decreases Size(node), 0, 0
  {
    hide Walks.Even;
    ChildrenEven(env, ReadSlot(node, name), row);
    RegionIs(env, node, name, row);
  }

  lemma RegionIs(env: Env, node: Node, name: string, row: Option<Row>)
    ensures Region(env, node, name, row) == WalkSlot(Render, env, node, name, row)
  {
  }

  lemma {:induction false} InsideEven(env: Env, node: Node, row: Option<Row>)
    requires !node.kind.Select?
    ensures InsideWalks(env, node, row).Even()
    decreases Size(node), 2, 0
  {
    hide WalkChildren, WalkSlot, WalkItems, WalkEmptyState, Region, Regions, RenderRegions, Walks.Even;
    NothingEven();
    ChildrenEven(env, ReadChildren(node), row);
    match node.kind {
      case Section => RegionsEven(env, node, row);
      case Panel => RegionsEven(env, node, row);
      case Toolbar => ToolbarEven(env, node, row);
      case EmptyState => SlotEven(env, node, "actions", row);
      case ItemList => ItemsEven(env, node, row);
      case ListItem => ListItemEven(env, node, row);
      case Dialog =>
        RegionIs(env, node, "body", row);
        SlotEven(env, node, "body", row);
        PlusEven(SlotWalks(env, node, "body", row), ChildrenWalks(env, ReadChildren(node), row));
      case Table => EmptyStateEven(env, node, row);
      case _ =>
    }
  }

  /** Four differently named slots. */
  function FourSlots(env: Env, node: Node, p: string, q: string, r: string, s: string, row: Option<Row>): Walks {
    SlotWalks(env, node, p, row).Plus(SlotWalks(env, node, q, row)).Plus(SlotWalks(env, node, r, row)).Plus(SlotWalks(env, node, s, row))
  }

  lemma {:induction false} FourSlotsEven(env: Env, node: Node, p: string, q: string, r: string, s: string, row: Option<Row>)
    ensures FourSlots(env, node, p, q, r, s, row).Even()
    decreases Size(node), 0, 1
  {
    hide Walks.Even, SlotWalks;
    SlotEven(env, node, p, row);
    SlotEven(env, node, q, row);
    SlotEven(env, node, r, row);
    SlotEven(env, node, s, row);
    var two := SlotWalks(env, node, p, row).Plus(SlotWalks(env, node, q, row));
    PlusEven(SlotWalks(env, node, p, row), SlotWalks(env, node, q, row));
    PlusEven(two, SlotWalks(env, node, r, row));
    PlusEven(two.Plus(SlotWalks(env, node, r, row)), SlotWalks(env, node, s, row));
  }

  lemma {:induction false} ToolbarEven(env: Env, node: Node, row: Option<Row>)
    requires node.kind.Toolbar?
    ensures InsideWalks(env, node, row).Even()
    decreases Size(node), 1, 0
  {
    hide Walks.Even, WalkChildren, WalkSlot, Region;
    FourSlotsEven(env, node, "commands", "filters", "search", "actions", row);
    ChildrenEven(env, ReadChildren(node), row);
    PlusEven(FourSlots(env, node, "commands", "filters", "search", "actions", row), ChildrenWalks(env, ReadChildren(node), row));
  }

  /** A list item renders its children before its meta and actions; the check visits them last. */
  lemma {:induction false} ListItemEven(env: Env, node: Node, row: Option<Row>)
    requires node.kind.ListItem?
    ensures InsideWalks(env, node, row).Even()
    decreases Size(node), 1, 0
  {
    hide Walks.Even, WalkChildren, WalkSlot, Region;
    RegionIs(env, node, "title", row);
    var t, s := SlotWalks(env, node, "title", row), SlotWalks(env, node, "subtitle", row);
    var m, a := SlotWalks(env, node, "meta", row), SlotWalks(env, node, "actions", row);
    var c := ChildrenWalks(env, ReadChildren(node), row);
    SlotEven(env, node, "title", row);
    SlotEven(env, node, "subtitle", row);
    SlotEven(env, node, "meta", row);
    SlotEven(env, node, "actions", row);
    ChildrenEven(env, ReadChildren(node), row);
    PlusEven(t, s);
    PlusEven(m, a);
    PlusEven(t.Plus(s), m.Plus(a));
    PlusEven(t.Plus(s).Plus(m.Plus(a)), c);
    var w := t.Plus(s).Plus(m.Plus(a)).Plus(c);
    ReorderedEven(t.Plus(s), m.Plus(a), c, w.(rendered := t.rendered + s.rendered + c.rendered + (m.rendered + a.rendered)));
    Regrouped(t, s, m, a, c);
  }

  lemma Regrouped(t: Walks, s: Walks, m: Walks, a: Walks, c: Walks)
    ensures t.Plus(s).Plus(m.Plus(a)).Plus(c) == t.Plus(s).Plus(m).Plus(a).Plus(c)
    ensures t.rendered + s.rendered + c.rendered + (m.rendered + a.rendered) == t.rendered + s.rendered + c.rendered + m.rendered + a.rendered
  {
  }

  lemma {:induction false} RegionsEven(env: Env, node: Node, row: Option<Row>)
    ensures Walks(Regions(Check, env, node, row), RenderRegions(env, node, row), Regions(Shown, env, node, row),
                  Regions(Added, env, node, row), Regions(Hidden, env, node, row)).Even()
    decreases Size(node), 1, 0
  {
    hide Walks.Even, WalkChildren, WalkSlot, Region;
    var h, t := SlotWalks(env, node, "header", row), SlotWalks(env, node, "toolbar", row);
    var b, c := SlotWalks(env, node, "body", row), ChildrenWalks(env, ReadChildren(node), row);
    var f, a := SlotWalks(env, node, "footer", row), SlotWalks(env, node, "actions", row);
    var e := if HasSlot(node, "body") || ReadChildren(node) != [] then NO_WALKS else SlotWalks(env, node, "empty", row);
    SlotEven(env, node, "header", row);
    SlotEven(env, node, "toolbar", row);
    SlotEven(env, node, "body", row);
    SlotEven(env, node, "empty", row);
    SlotEven(env, node, "footer", row);
    SlotEven(env, node, "actions", row);
    ChildrenEven(env, ReadChildren(node), row);
    NothingEven();
    PlusEven(h, t);
    PlusEven(h.Plus(t), b);
    PlusEven(h.Plus(t).Plus(b), c);
    PlusEven(h.Plus(t).Plus(b).Plus(c), e);
    PlusEven(h.Plus(t).Plus(b).Plus(c).Plus(e), f);
    PlusEven(h.Plus(t).Plus(b).Plus(c).Plus(e).Plus(f), a);
  }

  function ItemsWalks(env: Env, node: Node, row: Option<Row>): Walks {
    Walks(WalkItems(Check, env, node, row), WalkItems(Render, env, node, row), WalkItems(Shown, env, node, row),
          WalkItems(Added, env, node, row), WalkItems(Hidden, env, node, row))
  }

  lemma {:induction false} ItemsEven(env: Env, node: Node, row: Option<Row>)
    ensures ItemsWalks(env, node, row).Even()
    decreases Size(node), 1, 0
  {
    hide Walks.Even, WalkChildren, WalkRecords, WalkSlot, Region;
    RegionIs(env, node, "empty", row);
    SlotEven(env, node, "empty", row);
    ChildrenEven(env, ReadChildren(node), row);
    RecordsEven(env, ReadSlot(node, "item"), RecordsOf(env, node.records, row));
  }

  function EmptyStateWalks(env: Env, node: Node, row: Option<Row>): Walks {
    Walks(WalkEmptyState(Check, env, node, row), WalkEmptyState(Render, env, node, row), WalkEmptyState(Shown, env, node, row),
          WalkEmptyState(Added, env, node, row), WalkEmptyState(Hidden, env, node, row))
  }

  lemma {:induction false} EmptyStateEven(env: Env, node: Node, row: Option<Row>)
    ensures EmptyStateWalks(env, node, row).Even()
    decreases Size(node), 1, 0
  {
    hide WalkNode, Walks.Even, Realize, IssuesOf, ResolveNode;
    NothingEven();
    if RecordsOf(env, node.records, row) == [] && node.emptyState.Some? {
      var shown := ResolveNode(env, node.emptyState.value, row);
      ResolveNodeSize(env, node.emptyState.value, row);
      var realization := Realize(env, shown.id, row, false);
      IssuesEven(RejectedHere(env, shown, row));
      if realization.Realized? { NodeEven(env, shown, realization.id, row); }
    }
  }

  lemma {:induction false} IssuesAreNoIds(rejected: seq<Id>)
    ensures Ids(IssuesOf(rejected)) == []
  {
    if rejected != [] {
      assert IssuesOf(rejected)[1..] == IssuesOf(rejected[1..]);
      IssuesAreNoIds(rejected[1..]);
    }
  }

  lemma {:induction false} RecordsEven(env: Env, children: seq<Child>, records: seq<Record>)
    ensures RecordsWalks(env, children, records).Even()
    decreases ChildrenSize(children), 3, |records|
  {
    hide Walks.Even, WalkChildren;
    NothingEven();
    if records != [] {
      var row := Some(Row(records[0], None));
      ChildrenEven(env, children, row);
      RecordsEven(env, children, records[1..]);
      PlusEven(ChildrenWalks(env, children, row), RecordsWalks(env, children, records[1..]));
    }
  }

  lemma {:induction false} ChildrenEven(env: Env, children: seq<Child>, row: Option<Row>)
    ensures ChildrenWalks(env, children, row).Even()
    decreases ChildrenSize(children), 2, 0
  {
    hide Walks.Even, WalkResolved;
    NothingEven();
    if children != [] {
      var resolved, bound := ResolveChild(env, children[0], row), ChildSize(children[0]);
      var issues := IssuesOf(RejectedIn(env, children[0], row));
      ResolvedEven(env, resolved, bound);
      ChildrenEven(env, children[1..], row);
      IssuesEven(RejectedIn(env, children[0], row));
      PlusEven(Walks(issues, [], [], [], []), ResolvedWalks(env, resolved, bound));
      PlusEven(Walks(issues, [], [], [], []).Plus(ResolvedWalks(env, resolved, bound)), ChildrenWalks(env, children[1..], row));
    }
  }

  lemma IssuesEven(rejected: seq<Id>)
    ensures Walks(IssuesOf(rejected), [], [], [], []).Even()
  {
    IssuesAreNoIds(rejected);
  }

  lemma {:induction false} ResolvedEven(env: Env, resolved: seq<Resolved>, bound: nat)
    requires forall k :: 0 <= k < |resolved| ==> Size(resolved[k].node) < bound
    ensures ResolvedWalks(env, resolved, bound).Even()
    decreases bound, 1, |resolved|
  {
    hide Walks.Even, WalkNode;
    NothingEven();
    if resolved != [] {
      var r := resolved[0];
      NodeEven(env, r.node, r.id, r.row);
      ResolvedEven(env, resolved[1..], bound);
      PlusEven(NodeWalks(env, r.node, r.id, r.row), ResolvedWalks(env, resolved[1..], bound));
    }
  }

  // ---------------------------------------------------------------------------
  // Form fields with plain controls.
  // ---------------------------------------------------------------------------

  /** What this walk would note does not occur: for what controls add, no form field's schema names a table or
      another form field, since every other kind renders as one node; for what is hidden, there is no select, no
      option and no form field with a control. */
  predicate SparesNode(mode: Mode, node: Node) {
    && (if mode.Hidden? then !node.kind.Select? && !node.kind.SelectOption? && !(node.kind.FormField? && node.control.Some?)
        else node.kind.FormField? && node.control.Some? ==>
               !node.control.value.kind.Table? && !node.control.value.kind.FormField?)
    && SparesAll(mode, node.children) && SparesSlots(mode, node.slots)
    && (node.emptyState.Some? ==> SparesNode(mode, node.emptyState.value))
  }

  /** No form field's schema names a table or another form field. */
  predicate PlainNode(node: Node) { SparesNode(Added, node) }

  /** No select, no option and no form field with a control: everything counted is shown, and nothing else. */
  predicate DirectNode(node: Node) { SparesNode(Hidden, node) && SparesNode(Added, node) }

  predicate SparesChild(mode: Mode, child: Child) {
    match child
    case BindList(_, item, empty) => SparesNode(mode, item) && (empty.Some? ==> SparesNode(mode, empty.value))
    case _ => SparesNode(mode, child.node)
  }

  predicate SparesAll(mode: Mode, children: seq<Child>) {
    children == [] || (SparesChild(mode, children[0]) && SparesAll(mode, children[1..]))
  }

  predicate SparesSlots(mode: Mode, slots: seq<Slot>) {
    slots == [] || (SparesAll(mode, slots[0].children) && SparesSlots(mode, slots[1..]))
  }

  lemma {:induction false} PlainSlot(mode: Mode, slots: seq<Slot>, name: string)
    requires SparesSlots(mode, slots)
    ensures SparesAll(mode, FindSlot(slots, name))
  {
    if slots != [] && slots[0].name != name { PlainSlot(mode, slots[1..], name); }
  }

  lemma {:induction false} PlainConcat(mode: Mode, a: seq<Child>, b: seq<Child>)
    requires SparesAll(mode, a) && SparesAll(mode, b)
    ensures SparesAll(mode, a + b)
  {
    if a == [] {
      assert a + b == b;
    } else {
      assert (a + b)[1..] == a[1..] + b;
      PlainConcat(mode, a[1..], b);
    }
  }

  lemma PlainReads(mode: Mode, node: Node, name: string)
    requires SparesNode(mode, node)
    ensures SparesAll(mode, ReadSlot(node, name)) && SparesAll(mode, ReadChildren(node))
  {
    PlainSlot(mode, node.slots, name);
    PlainSlot(mode, node.slots, "children");
    PlainConcat(mode, node.children, ReadSlot(node, "children"));
  }

  lemma {:induction false} PlainResolved(mode: Mode, env: Env, node: Node, row: Option<Row>)
    requires SparesNode(mode, node)
    ensures SparesNode(mode, ResolveNode(env, node, row))
  {
    PlainResolvedAll(mode, env, node.children, row);
    PlainResolvedSlots(mode, env, node.slots, row);
    if node.emptyState.Some? { PlainResolved(mode, env, node.emptyState.value, row); }
  }

  lemma {:induction false} PlainResolvedChild(mode: Mode, env: Env, child: Child, row: Option<Row>)
    requires SparesChild(mode, child)
    ensures SparesChild(mode, ResolveInChild(env, child, row))
  {
    match child {
      case BindList(_, item, empty) =>
        PlainResolved(mode, env, item, row);
        if empty.Some? { PlainResolved(mode, env, empty.value, row); }
      case _ => PlainResolved(mode, env, child.node, row);
    }
  }

  lemma {:induction false} PlainResolvedAll(mode: Mode, env: Env, children: seq<Child>, row: Option<Row>)
    requires SparesAll(mode, children)
    ensures SparesAll(mode, ResolveAll(env, children, row))
  {
    if children != [] {
      PlainResolvedChild(mode, env, children[0], row);
      PlainResolvedAll(mode, env, children[1..], row);
    }
  }

  lemma {:induction false} PlainResolvedSlots(mode: Mode, env: Env, slots: seq<Slot>, row: Option<Row>)
    requires SparesSlots(mode, slots)
    ensures SparesSlots(mode, ResolveSlots(env, slots, row))
  {
    if slots != [] {
      PlainResolvedAll(mode, env, slots[0].children, row);
      PlainResolvedSlots(mode, env, slots[1..], row);
    }
  }

  lemma PlainChildResolves(mode: Mode, env: Env, child: Child, row: Option<Row>)
    requires SparesChild(mode, child)
    ensures forall k :: 0 <= k < |ResolveChild(env, child, row)| ==> SparesNode(mode, ResolveChild(env, child, row)[k].node)
  {
    hide SparesNode, Realize;
  }

  // ---------------------------------------------------------------------------
  // Such a walk notes nothing.
  // ---------------------------------------------------------------------------

  lemma {:induction false} NodeNotesNothing(mode: Mode, env: Env, node: Node, id: Option<string>, row: Option<Row>)
    requires (mode.Added? || mode.Hidden?) && SparesNode(mode, node)
    ensures WalkNode(mode, env, node, id, row) == []
    decreases Size(node), 3, 0
  {
    if Supported(env, node) && !node.kind.Select? && !node.kind.SelectOption? {
      if node.kind.FormField? && node.control.Some? {
        NoChildren(env, ControlOf(node), row);
      } else {
        InsideNotesNothing(mode, env, node, row);
      }
    }
  }

  /** A plain control shows nothing inside. */
  lemma NoChildren(env: Env, control: Node, row: Option<Row>)
    requires control.children == [] && control.slots == [] && !control.kind.Table? && !control.kind.FormField?
    ensures Inside(Shown, env, control, row) == []
  {
    hide WalkSlot, WalkItems, Regions;
    assert ReadChildren(control) == [];
    forall name: string ensures WalkSlot(Shown, env, control, name, row) == [] { NoSlot(Shown, env, control, name, row); }
    NoRegions(env, control, row);
    NoItems(env, control, row);
  }

  lemma NoSlot(mode: Mode, env: Env, node: Node, name: string, row: Option<Row>)
    requires node.slots == []
    ensures WalkSlot(mode, env, node, name, row) == []
  {
    assert ReadSlot(node, name) == [];
  }

  lemma NoRegions(env: Env, control: Node, row: Option<Row>)
    requires control.children == [] && control.slots == []
    ensures Regions(Shown, env, control, row) == []
  {
    hide WalkSlot;
    assert ReadChildren(control) == [];
    NoSlot(Shown, env, control, "header", row);
    NoSlot(Shown, env, control, "toolbar", row);
    NoSlot(Shown, env, control, "body", row);
    NoSlot(Shown, env, control, "empty", row);
    NoSlot(Shown, env, control, "footer", row);
    NoSlot(Shown, env, control, "actions", row);
  }

  lemma NoItems(env: Env, control: Node, row: Option<Row>)
    requires control.children == [] && control.slots == []
    ensures WalkItems(Shown, env, control, row) == []
  {
    hide WalkSlot, WalkRecords;
    assert ReadChildren(control) == [] && ReadSlot(control, "item") == [];
    NoSlot(Shown, env, control, "empty", row);
    NoRecords(Shown, env, [], RecordsOf(env, control.records, row));
  }

  lemma {:induction false} NoRecords(mode: Mode, env: Env, children: seq<Child>, records: seq<Record>)
    requires forall row :: WalkChildren(mode, env, children, row) == []
    ensures WalkRecords(mode, env, children, records) == []
    decreases |records|
  {
    if records != [] { NoRecords(mode, env, children, records[1..]); }
  }

  lemma {:induction false} SlotNotesNothing(mode: Mode, env: Env, node: Node, name: string, row: Option<Row>)
    requires (mode.Added? || mode.Hidden?) && SparesNode(mode, node)
    ensures WalkSlot(mode, env, node, name, row) == []
    decreases Size(node), 0, 0
  {
    PlainReads(mode, node, name);
    ChildrenNoteNothing(mode, env, ReadSlot(node, name), row);
  }

  lemma {:induction false} RegionsNoteNothing(mode: Mode, env: Env, node: Node, row: Option<Row>)
    requires (mode.Added? || mode.Hidden?) && SparesNode(mode, node)
    ensures Regions(mode, env, node, row) == []
    decreases Size(node), 1, 0
  {
    hide SparesNode, WalkChildren, WalkSlot;
    PlainReads(mode, node, "body");
    ChildrenNoteNothing(mode, env, ReadChildren(node), row);
    SlotNotesNothing(mode, env, node, "header", row);
    SlotNotesNothing(mode, env, node, "toolbar", row);
    SlotNotesNothing(mode, env, node, "body", row);
    SlotNotesNothing(mode, env, node, "empty", row);
    SlotNotesNothing(mode, env, node, "footer", row);
    SlotNotesNothing(mode, env, node, "actions", row);
  }

  lemma {:induction false} ItemsNoteNothing(mode: Mode, env: Env, node: Node, row: Option<Row>)
    requires (mode.Added? || mode.Hidden?) && SparesNode(mode, node)
    ensures WalkItems(mode, env, node, row) == []
    decreases Size(node), 1, 0
  {
    hide SparesNode, WalkChildren, WalkSlot, WalkRecords;
    PlainReads(mode, node, "item");
    ChildrenNoteNothing(mode, env, ReadChildren(node), row);
    SlotNotesNothing(mode, env, node, "empty", row);
    forall r: Option<Row> ensures WalkChildren(mode, env, ReadSlot(node, "item"), r) == [] {
      ChildrenNoteNothing(mode, env, ReadSlot(node, "item"), r);
    }
    NoRecords(mode, env, ReadSlot(node, "item"), RecordsOf(env, node.records, row));
  }

  lemma {:induction false} InsideNotesNothing(mode: Mode, env: Env, node: Node, row: Option<Row>)
    requires (mode.Added? || mode.Hidden?) && SparesNode(mode, node)
    ensures Inside(mode, env, node, row) == []
    decreases Size(node), 2, 0
  {
    hide SparesNode, WalkChildren, WalkSlot, WalkItems, WalkEmptyState, Regions;
    PlainReads(mode, node, "body");
    ChildrenNoteNothing(mode, env, ReadChildren(node), row);
    match node.kind {
      case Section => RegionsNoteNothing(mode, env, node, row);
      case Panel => RegionsNoteNothing(mode, env, node, row);
      case ItemList => ItemsNoteNothing(mode, env, node, row);
      case Table => EmptyStateNotesNothing(mode, env, node, row);
      case Toolbar =>
        SlotNotesNothing(mode, env, node, "commands", row);
        SlotNotesNothing(mode, env, node, "filters", row);
        SlotNotesNothing(mode, env, node, "search", row);
        SlotNotesNothing(mode, env, node, "actions", row);
      case ListItem =>
        SlotNotesNothing(mode, env, node, "title", row);
        SlotNotesNothing(mode, env, node, "subtitle", row);
        SlotNotesNothing(mode, env, node, "meta", row);
        SlotNotesNothing(mode, env, node, "actions", row);
      case EmptyState => SlotNotesNothing(mode, env, node, "actions", row);
      case Select => SlotNotesNothing(mode, env, node, "options", row);
      case Dialog => SlotNotesNothing(mode, env, node, "body", row);
      case _ =>
    }
  }

  lemma {:induction false} EmptyStateNotesNothing(mode: Mode, env: Env, node: Node, row: Option<Row>)
    requires (mode.Added? || mode.Hidden?) && SparesNode(mode, node)
    ensures WalkEmptyState(mode, env, node, row) == []
    decreases Size(node), 1, 0
  {
    hide WalkNode;
    if RecordsOf(env, node.records, row) == [] && node.emptyState.Some? {
      var shown := ResolveNode(env, node.emptyState.value, row);
      ResolveNodeSize(env, node.emptyState.value, row);
      PlainResolved(mode, env, node.emptyState.value, row);
      var realization := Realize(env, shown.id, row, false);
      if realization.Realized? { NodeNotesNothing(mode, env, shown, realization.id, row); }
    }
  }

  lemma {:induction false} ChildrenNoteNothing(mode: Mode, env: Env, children: seq<Child>, row: Option<Row>)
    requires (mode.Added? || mode.Hidden?) && SparesAll(mode, children)
    ensures WalkChildren(mode, env, children, row) == []
    decreases ChildrenSize(children), 2, 0
  {
    hide WalkResolved;
    if children != [] {
      PlainChildResolves(mode, env, children[0], row);
      ResolvedNoteNothing(mode, env, ResolveChild(env, children[0], row), ChildSize(children[0]));
      ChildrenNoteNothing(mode, env, children[1..], row);
    }
  }

  lemma {:induction false} ResolvedNoteNothing(mode: Mode, env: Env, resolved: seq<Resolved>, bound: nat)
    requires mode.Added? || mode.Hidden?
    requires forall k :: 0 <= k < |resolved| ==> Size(resolved[k].node) < bound && SparesNode(mode, resolved[k].node)
    ensures WalkResolved(mode, env, resolved, bound) == []
    decreases bound, 1, |resolved|
  {
    hide SparesNode, WalkNode;
    if resolved != [] {
      NodeNotesNothing(mode, env, resolved[0].node, resolved[0].id, resolved[0].row);
      ResolvedNoteNothing(mode, env, resolved[1..], bound);
    }
  }

  // ---------------------------------------------------------------------------
  // Coverage.
  // ---------------------------------------------------------------------------

  /** The identities the renderer emits for a node of plain form fields are among those the check counts. */
  lemma NodeWithin(env: Env, node: Node, id: Option<string>, row: Option<Row>)
    requires PlainNode(node)
    ensures multiset(Ids(WalkNode(Render, env, node, id, row))) <= multiset(Ids(WalkNode(Check, env, node, id, row)))
  {
    hide WalkNode;
    NodeEven(env, node, id, row);
    NodeNotesNothing(Added, env, node, id, row);
    Fewer(NodeWalks(env, node, id, row));
  }

  lemma Fewer(w: Walks)
    requires w.Even() && w.added == []
    ensures Count(w.rendered) <= Count(w.checked)
  {
    CountNothing();
    forall x ensures Count(w.rendered)[x] <= Count(w.checked)[x] {
      assert (Count(w.shown) + Count(w.hidden))[x] == (Count(w.checked) + Count(w.added))[x];
    }
  }

  /** If the identity check passes, the identities the renderer emits are pairwise distinct, for every
      tree of plain form fields and every store, row and predicate. */
  lemma RenderedIdsDistinct(env: Env, root: Node, id: Option<string>)
    requires PlainNode(root) && Passes(env, root, id)
    ensures Distinct(Ids(WalkNode(Render, env, root, id, None)))
  {
    hide WalkNode;
    NodeWithin(env, root, id, None);
    DistinctWithin(Ids(WalkNode(Render, env, root, id, None)), Ids(WalkNode(Check, env, root, id, None)));
  }

  /** The identities that controls of form fields add are distinct, and none of them is counted by the check,
      except where it is hidden. */
  ghost predicate AddedApart(env: Env, root: Node, id: Option<string>) {
    && Distinct(Ids(WalkNode(Added, env, root, id, None)))
    && forall x :: x in Ids(WalkNode(Added, env, root, id, None)) && x in Ids(WalkNode(Check, env, root, id, None)) ==>
         x in Ids(WalkNode(Hidden, env, root, id, None))
  }

  /** For every tree that passes: the renderer emits distinct identities exactly when those the controls of
      form fields add are distinct, and none of them is counted by the check, except where it is hidden. */
  lemma RenderedDistinctIff(env: Env, root: Node, id: Option<string>)
    requires Passes(env, root, id)
    ensures Distinct(Ids(WalkNode(Render, env, root, id, None))) <==> AddedApart(env, root, id)
  {
    hide WalkNode;
    var w := NodeWalks(env, root, id, None);
    NodeEven(env, root, id, None);
    SumDistinct(Ids(w.rendered), Ids(w.hidden), Ids(w.checked), Ids(w.added));
  }

  lemma SumDistinct(r: seq<string>, h: seq<string>, c: seq<string>, a: seq<string>)
    requires multiset(r) + multiset(h) == multiset(c) + multiset(a) && multiset(h) <= multiset(c) && Distinct(c)
    ensures Distinct(r) <==> Distinct(a) && forall x :: x in a && x in c ==> x in h
  {
    CountsDecide(r);
    CountsDecide(a);
    CountsDecide(c);
    forall x ensures multiset(r)[x] + multiset(h)[x] == multiset(c)[x] + multiset(a)[x] && multiset(h)[x] <= multiset(c)[x] {
      assert (multiset(r) + multiset(h))[x] == (multiset(c) + multiset(a))[x];
    }
    assert forall x :: x in a <==> multiset(a)[x] >= 1;
    assert forall x :: x in c <==> multiset(c)[x] >= 1;
    assert forall x :: x in h <==> multiset(h)[x] >= 1;
  }

  /** Where nothing is hidden, counted and added identities together decide. */
  lemma CountedAndAddedDecide(env: Env, root: Node, id: Option<string>)
    requires Ids(WalkNode(Hidden, env, root, id, None)) == []
    ensures Distinct(Ids(WalkNode(Render, env, root, id, None))) <==>
      Distinct(Ids(WalkNode(Check, env, root, id, None)) + Ids(WalkNode(Added, env, root, id, None)))
  {
    hide WalkNode;
    var w := NodeWalks(env, root, id, None);
    NodeEven(env, root, id, None);
    assert multiset(Ids(w.rendered)) == multiset(Ids(w.checked) + Ids(w.added));
    CountsDecide(Ids(w.rendered));
    CountsDecide(Ids(w.checked) + Ids(w.added));
  }

  // ---------------------------------------------------------------------------
  // Where coverage fails: a form field whose schema names a table.
  // ---------------------------------------------------------------------------

  function LeafNode(id: Id): Node { Node(Leaf, id, [], Frozen([]), [], [], None, None) }

  /** A form field whose schema asks for a table with an empty state. */
  function TableField(id: Id, emptyState: Node): Node {
    LeafNode(id).(kind := FormField, control := Some(LeafNode(NoId).(kind := Table, emptyState := Some(emptyState))))
  }

  lemma TableFieldWalks(env: Env, id: Option<string>, row: Option<Row>, field: Id, emptyState: Node)
    ensures var node := TableField(field, emptyState);
      && WalkNode(Check, env, node, id, row) == Own(node, id)
      && WalkNode(Render, env, node, id, row) == Own(node, id) + WalkEmptyState(Render, env, ControlOf(node), row)
  {
    hide WalkEmptyState, ResolveNode;
    var node := TableField(field, emptyState);
    var control := ControlOf(node);
    assert Supported(env, node) && Supported(env, control);
    assert Inside(Check, env, node, row) == [];
    assert WalkNode(Render, env, control, id, row) == Own(node, id) + WalkEmptyState(Render, env, control, row);
  }

  const CELL := LeafNode(Literal("x"))
  const FIELD := TableField(Literal("f"), CELL)
  const PAGE := LeafNode(NoId).(kind := Stack, children := [Plain(CELL), Plain(FIELD)])

  /** A page that passes the check and still emits one identity twice. */
  lemma UncoveredTableField(env: Env)
    ensures Passes(env, PAGE, None) && !Distinct(Ids(WalkNode(Render, env, PAGE, None, None)))
  {
    hide WalkNode;
    var x, f := Mark("x", Literal("x")), Mark("f", Literal("f"));
    LeafWalks(env);
    FieldWalks(env);
    PageWalks(env, Check);
    PageWalks(env, Render);
    Concats([x], [f]);
    Concats([x], [f, x]);
    Concats([f], [x]);
    assert [x] + [f, x] == [x, f, x] && [f] + [x] == [f, x] && [x] + [f] == [x, f];
    assert Ids([x]) == ["x"] && Ids([f]) == ["f"];
    var ids := Ids(WalkNode(Render, env, PAGE, None, None));
    assert ids == ["x"] + (["f"] + ["x"]);
    assert ids[0] == ids[2];
  }

  lemma LeafWalks(env: Env)
    ensures WalkNode(Check, env, CELL, Some("x"), None) == [Mark("x", Literal("x"))]
    ensures WalkNode(Render, env, CELL, Some("x"), None) == [Mark("x", Literal("x"))]
  {
    assert Supported(env, CELL);
  }

  lemma FieldWalks(env: Env)
    ensures WalkNode(Check, env, FIELD, Some("f"), None) == [Mark("f", Literal("f"))]
    ensures WalkNode(Render, env, FIELD, Some("f"), None) == [Mark("f", Literal("f")), Mark("x", Literal("x"))]
  {
    hide WalkNode;
    TableFieldWalks(env, Some("f"), None, Literal("f"), CELL);
    LeafWalks(env);
    assert ResolveNode(env, CELL, None) == CELL;
    assert WalkEmptyState(Render, env, ControlOf(FIELD), None) == [Mark("x", Literal("x"))];
  }

  /** A stack of two plain children. */
  lemma PageWalks(env: Env, mode: Mode)
    ensures WalkNode(mode, env, PAGE, None, None)
         == WalkNode(mode, env, CELL, Some("x"), None) + WalkNode(mode, env, FIELD, Some("f"), None)
  {
    hide WalkChildren;
    assert ReadChildren(PAGE) == PAGE.children;
    TwoChildren(mode, env);
    assert Supported(env, PAGE) && Own(PAGE, None) == [];
  }

  lemma TwoChildren(mode: Mode, env: Env)
    ensures WalkChildren(mode, env, PAGE.children, None)
         == WalkNode(mode, env, CELL, Some("x"), None) + WalkNode(mode, env, FIELD, Some("f"), None)
  {
    hide ResolveChild, RejectedIn, IssuesOf, WalkResolved, WalkNode;
    OnePlain(mode, env, CELL, "x");
    OnePlain(mode, env, FIELD, "f");
    LastChild(mode, env, Plain(FIELD));
    assert PAGE.children[0] == Plain(CELL) && PAGE.children[1..] == [Plain(FIELD)];
  }

  lemma LastChild(mode: Mode, env: Env, child: Child)
    requires IssuesOf(RejectedIn(env, child, None)) == []
    ensures WalkChildren(mode, env, [child], None)
         == WalkResolved(mode, env, ResolveChild(env, child, None), ChildSize(child))
  {
    assert [child][1..] == [];
  }

  lemma OnePlain(mode: Mode, env: Env, node: Node, id: string)
    requires node.id == Literal(id)
    ensures WalkResolved(mode, env, ResolveChild(env, Plain(node), None), ChildSize(Plain(node)))
         == WalkNode(mode, env, node, Some(id), None)
    ensures IssuesOf(RejectedIn(env, Plain(node), None)) == []
  {
    var resolved := ResolveChild(env, Plain(node), None);
    assert resolved == [Resolved(node, Some(id), None)] && resolved[1..] == [];
    assert WalkResolved(mode, env, resolved[1..], ChildSize(Plain(node))) == [];
  }
}
