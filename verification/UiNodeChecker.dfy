/** The identity check as it runs: a walk that pushes issues and counts identities in a map. It passes
    exactly when `Passes` holds of the tree, and then the rendered identities are distinct. */
module UiNodeChecker {
  import opened Wrappers
  import opened UiNodes
  import opened UiNodeIdentity

  lemma Tail(o: seq<Mark>, a: seq<Mark>, b: seq<Mark>)
    ensures (o + a) + b == o + (a + b)
  {
  }

  /** A text with its number of locations. */
  ghost predicate Counted(identities: map<string, nat>, ids: multiset<string>) {
    && (forall s :: s in identities <==> s in ids)
    && (forall s :: s in identities ==> identities[s] == ids[s])
  }

  class IdentityCheck {
    const env: Env
    var issues: seq<Id>
    var identities: map<string, nat>
    ghost var noted: seq<Mark>

    ghost predicate Valid()
      reads this
    {
      issues == IssuesIn(noted) && Counted(identities, multiset(Ids(noted)))
    }

    constructor (env: Env)
      ensures Valid() && noted == [] && this.env == env
    {
      this.env := env;
      issues, identities, noted := [], map[], [];
    }

    method Reject(id: Id)
      requires Valid()
      modifies this
      ensures Valid() && noted == old(noted) + [Issue(id)]
    {
      hide Counted, Ids, IssuesIn;
      Concats(noted, [Issue(id)]);
      OneMark("", id);
      assert Ids(noted) + [] == Ids(noted);
      issues := issues + [id];
      noted := noted + [Issue(id)];
    }

    method Note(id: string, source: Id)
      requires Valid()
      modifies this
      ensures Valid() && noted == old(noted) + [Mark(id, source)]
    {
      hide Counted, Ids, IssuesIn;
      Concats(noted, [Mark(id, source)]);
      OneMark(id, source);
      CountsOneMore(identities, Ids(noted), id);
      identities := identities[id := 1 + if id in identities then identities[id] else 0];
      noted := noted + [Mark(id, source)];
    }

    /** Realizes one node in the row, reporting a rejected identity. */
    method ResolveInPlace(node: Node, row: Option<Row>) returns (resolved: seq<Resolved>)
      requires Valid()
      modifies this
      ensures Valid() && noted == old(noted) + IssuesOf(RejectedHere(env, node, row))
      ensures resolved == ResolveHere(env, node, row)
    {
      hide Realize, Counted, Ids, IssuesIn;
      OneMark("", node.id);
      var realization := Realize(env, node.id, row, false);
      if realization.Rejected? { Reject(node.id); }
      return if realization.Realized? then [Resolved(node, realization.id, row)] else [];
    }

    /** Realizes the item template in one row. */
    method ResolveInRow(item: Node, record: Record) returns (resolved: seq<Resolved>)
      requires Valid()
      modifies this
      ensures Valid() && noted == old(noted) + IssuesOf(RejectedRows(env, item, [record]))
      ensures resolved == ResolveRows(env, item, [record])
    {
      hide Realize, Counted, Ids, IssuesIn;
      OneMark("", item.id);
      assert [record][1..] == [];
      var plain := Row(record, None);
      var realization := Realize(env, item.id, Some(plain), true);
      if realization.Rejected? { Reject(item.id); }
      if !realization.Realized? { return []; }
      return [Resolved(item, realization.id, Some(if item.id.RowBinding? then plain.(bound := realization.id) else plain))];
    }

    /** Realizes the item template in every row. */
    method ResolveTemplate(item: Node, records: seq<Record>) returns (resolved: seq<Resolved>)
      requires Valid()
      modifies this
      ensures Valid() && noted == old(noted) + IssuesOf(RejectedRows(env, item, records))
      ensures resolved == ResolveRows(env, item, records)
    {
      hide Counted, Ids, IssuesIn, ResolveRows, RejectedRows, IssuesOf;
      resolved := [];
      NoRows(env, item);
      for k := 0 to |records|
        invariant Valid()
        invariant noted == old(noted) + IssuesOf(RejectedRows(env, item, records[..k]))
        invariant resolved == ResolveRows(env, item, records[..k])
      {
        var one := ResolveInRow(item, records[k]);
        resolved := resolved + one;
        RowsSplit(env, item, records[..k], [records[k]]);
        assert records[..k + 1] == records[..k] + [records[k]];
        Tail(old(noted), IssuesOf(RejectedRows(env, item, records[..k])), IssuesOf(RejectedRows(env, item, [records[k]])));
      }
      assert records[..|records|] == records;
    }

    method ResolveChildHere(child: Child, row: Option<Row>) returns (resolved: seq<Resolved>)
      requires Valid()
      modifies this
      ensures Valid() && noted == old(noted) + IssuesOf(RejectedIn(env, child, row))
      ensures resolved == ResolveChild(env, child, row)
    {
      resolved := [];
      match child {
        case Plain(node) => resolved := ResolveInPlace(node, row);
        case BindList(source, item, empty) =>
          var records := env.entityRows(source, row);
          if records == [] {
            if empty.Some? { resolved := ResolveInPlace(empty.value, row); }
          } else {
            resolved := ResolveTemplate(item, records);
          }
        case BindIf(path, node) => if env.truthy(path, row) { resolved := ResolveInPlace(node, row); }
        case PresentationIf(name, node) => if env.presented(name) { resolved := ResolveInPlace(node, row); }
        case Conditional(hidden, width, pointer, node) =>
          if Matches(width, pointer) != hidden { resolved := ResolveInPlace(node, row); }
      }
    }

    method VisitChildren(children: seq<Child>, row: Option<Row>)
      requires Valid()
      modifies this
      ensures Valid() && noted == old(noted) + WalkChildren(Check, env, children, row)
      decreases ChildrenSize(children), 2, 0
    {
      if children == [] { return; }
      var resolved := ResolveChildHere(children[0], row);
      VisitResolved(resolved, ChildSize(children[0]));
      VisitChildren(children[1..], row);
      ghost var issues_ := IssuesOf(RejectedIn(env, children[0], row));
      Tail(old(noted), issues_, WalkResolved(Check, env, resolved, ChildSize(children[0])));
      Tail(old(noted), issues_ + WalkResolved(Check, env, resolved, ChildSize(children[0])), WalkChildren(Check, env, children[1..], row));
    }

    method VisitResolved(resolved: seq<Resolved>, bound: nat)
      requires Valid() && forall k :: 0 <= k < |resolved| ==> Size(resolved[k].node) < bound
      modifies this
      ensures Valid() && noted == old(noted) + WalkResolved(Check, env, resolved, bound)
      decreases bound, 1, |resolved|
    {
      if resolved == [] { return; }
      VisitNode(resolved[0].node, resolved[0].id, resolved[0].row);
      VisitResolved(resolved[1..], bound);
      Tail(old(noted), WalkNode(Check, env, resolved[0].node, resolved[0].id, resolved[0].row),
           WalkResolved(Check, env, resolved[1..], bound));
    }

    method VisitSlot(node: Node, name: string, row: Option<Row>)
      requires Valid()
      modifies this
      ensures Valid() && noted == old(noted) + WalkSlot(Check, env, node, name, row)
      decreases Size(node), 0, 0
    {
      VisitChildren(ReadSlot(node, name), row);
    }

    method VisitItems(children: seq<Child>, records: seq<Record>)
      requires Valid()
      modifies this
      ensures Valid() && noted == old(noted) + WalkRecords(Check, env, children, records)
      decreases ChildrenSize(children), 3, |records|
    {
      if records == [] { return; }
      VisitChildren(children, Some(Row(records[0], None)));
      VisitItems(children, records[1..]);
      Tail(old(noted), WalkChildren(Check, env, children, Some(Row(records[0], None))), WalkRecords(Check, env, children, records[1..]));
    }

    /** The slots named, then the node's children. */
    method VisitSlots(node: Node, names: seq<string>, row: Option<Row>) returns (ghost visited: seq<Mark>)
      requires Valid()
      modifies this
      ensures Valid() && noted == old(noted) + visited && visited == SlotsOf(env, node, names, row)
      decreases Size(node), 1, |names|
    {
      visited := [];
      for k := 0 to |names|
        invariant Valid() && noted == old(noted) + visited && visited == SlotsOf(env, node, names[..k], row)
      {
        assert names[..k + 1][..k] == names[..k];
        VisitSlot(node, names[k], row);
        Tail(old(noted), visited, WalkSlot(Check, env, node, names[k], row));
        visited := visited + WalkSlot(Check, env, node, names[k], row);
      }
      assert names[..|names|] == names;
    }

    method VisitRegions(node: Node, row: Option<Row>)
      requires Valid()
      modifies this
      ensures Valid() && noted == old(noted) + Regions(Check, env, node, row)
      decreases Size(node), 2, 0
    {
      hide Valid, WalkChildren, WalkSlot, SlotsOf;
      ghost var first := VisitSlots(node, ["header", "toolbar", "body"], row);
      VisitChildren(ReadChildren(node), row);
      ghost var own := WalkChildren(Check, env, ReadChildren(node), row);
      ghost var empty: seq<Mark> := [];
      if !HasSlot(node, "body") && ReadChildren(node) == [] {
        VisitSlot(node, "empty", row);
        empty := WalkSlot(Check, env, node, "empty", row);
      }
      ghost var last := VisitSlots(node, ["footer", "actions"], row);
      SlotsOfThree(env, node, "header", "toolbar", "body", row);
      SlotsOfTwo(env, node, "footer", "actions", row);
      FourTails(old(noted), first, own, empty, last);
      RegionsAre(WalkSlot(Check, env, node, "header", row), WalkSlot(Check, env, node, "toolbar", row),
                 WalkSlot(Check, env, node, "body", row), own, empty,
                 WalkSlot(Check, env, node, "footer", row), WalkSlot(Check, env, node, "actions", row));
    }

    method VisitTableEmptyState(node: Node, row: Option<Row>)
      requires Valid()
      modifies this
      ensures Valid() && noted == old(noted) + WalkEmptyState(Check, env, node, row)
      decreases Size(node), 1, 0
    {
      hide Valid, WalkNode, ResolveNode, Realize;
      OneMark("", NoId);
      if RecordsOf(env, node.records, row) != [] || node.emptyState.None? { return; }
      var shown := ResolveNode(env, node.emptyState.value, row);
      ResolveNodeSize(env, node.emptyState.value, row);
      var resolved := ResolveInPlace(shown, row);
      if resolved != [] {
        assert RejectedHere(env, shown, row) == [];
        VisitNode(shown, resolved[0].id, row);
      }
    }

    method VisitInside(node: Node, row: Option<Row>)
      requires Valid()
      modifies this
      ensures Valid() && noted == old(noted) + Inside(Check, env, node, row)
      decreases Size(node), 3, 0
    {
      hide Valid, WalkChildren, WalkSlot, SlotsOf, Regions, WalkEmptyState, WalkRecords;
      match node.kind {
        case Stack => VisitChildren(ReadChildren(node), row);
        case FormSection => VisitChildren(ReadChildren(node), row);
        case Inline => VisitChildren(ReadChildren(node), row);
        case MetricGrid => VisitChildren(ReadChildren(node), row);
        case Form => VisitChildren(ReadChildren(node), row);
        case Section => VisitRegions(node, row);
        case Panel => VisitRegions(node, row);
        case Toolbar =>
          ghost var slots := VisitSlots(node, ["commands", "filters", "search", "actions"], row);
          VisitChildren(ReadChildren(node), row);
          SlotsOfFour(env, node, "commands", "filters", "search", "actions", row);
          Tail(old(noted), slots, WalkChildren(Check, env, ReadChildren(node), row));
        case EmptyState => VisitSlot(node, "actions", row);
        case ItemList =>
          var records := RecordsOf(env, node.records, row);
          if records != [] {
            VisitItems(ReadSlot(node, "item"), records);
          } else if ReadChildren(node) != [] {
            VisitChildren(ReadChildren(node), row);
          } else {
            VisitSlot(node, "empty", row);
          }
        case ListItem =>
          ghost var slots := VisitSlots(node, ["title", "subtitle", "meta", "actions"], row);
          VisitChildren(ReadChildren(node), row);
          SlotsOfFour(env, node, "title", "subtitle", "meta", "actions", row);
          Tail(old(noted), slots, WalkChildren(Check, env, ReadChildren(node), row));
        case Select => VisitSlot(node, "options", row);
        case Dialog =>
          VisitSlot(node, "body", row);
          VisitChildren(ReadChildren(node), row);
          Tail(old(noted), WalkSlot(Check, env, node, "body", row), WalkChildren(Check, env, ReadChildren(node), row));
        case Table => VisitTableEmptyState(node, row);
        case _ =>
      }
    }

    method VisitNode(node: Node, id: Option<string>, row: Option<Row>)
      requires Valid()
      modifies this
      ensures Valid() && noted == old(noted) + WalkNode(Check, env, node, id, row)
      decreases Size(node), 4, 0
    {
      hide Valid, Inside, Supported;
      if id.Some? && id.value != "" { Note(id.value, node.id); }
      if !Supported(env, node) { return; }
      VisitInside(node, row);
      Tail(old(noted), Own(node, id), Inside(Check, env, node, row));
    }

    /** What the check reports: nothing exactly when the tree passes. Then the rendered identities are distinct if
        no form field names a table or a form field; and in general under the stated condition on what form
        controls add. */
    method RealizedIdentityIssue(root: Node, id: Option<string>) returns (clean: bool)
      requires Valid() && noted == []
      modifies this
      ensures clean <==> Passes(env, root, id)
      ensures clean && PlainNode(root) ==> Distinct(Ids(WalkNode(Render, env, root, id, None)))
      ensures clean ==> (Distinct(Ids(WalkNode(Render, env, root, id, None))) <==> AddedApart(env, root, id))
    {
      VisitNode(root, id, None);
      assert noted == WalkNode(Check, env, root, id, None);
      if PlainNode(root) && Passes(env, root, id) { RenderedIdsDistinct(env, root, id); }
      if Passes(env, root, id) { RenderedDistinctIff(env, root, id); }
      CountsDecide(Ids(noted));
      if issues != [] { return false; }
      var left := identities.Keys;
      while left != {}
        invariant left <= identities.Keys
        invariant forall s :: s in identities && s !in left ==> identities[s] <= 1
        decreases |left|
      {
        var s :| s in left;
        if identities[s] > 1 { return false; }
        left := left - {s};
      }
      return true;
    }
  }

  lemma OneMark(id: string, source: Id)
    ensures Ids([Mark(id, source)]) == [id] && IssuesIn([Mark(id, source)]) == []
    ensures Ids([Issue(source)]) == [] && IssuesIn([Issue(source)]) == [source]
    ensures IssuesOf([source]) == [Issue(source)] && IssuesOf([]) == []
  {
    assert [Mark(id, source)][1..] == [] && [Issue(source)][1..] == [];
  }

  lemma CountsOneMore(identities: map<string, nat>, ids: seq<string>, id: string)
    requires Counted(identities, multiset(ids))
    ensures Counted(identities[id := 1 + if id in identities then identities[id] else 0], multiset(ids + [id]))
    ensures ids + [] == ids
  {
    assert multiset(ids + [id]) == multiset(ids) + multiset{id};
  }

  lemma FourTails(o: seq<Mark>, a: seq<Mark>, b: seq<Mark>, c: seq<Mark>, d: seq<Mark>)
    ensures o + a + b + c + d == o + (a + b + c + d) && o + a + b + [] + d == o + a + b + d
  {
  }

  lemma RegionsAre(h: seq<Mark>, t: seq<Mark>, b: seq<Mark>, c: seq<Mark>, e: seq<Mark>, f: seq<Mark>, a: seq<Mark>)
    ensures (h + t + b) + c + e + (f + a) == h + t + b + c + e + f + a
  {
  }

  lemma NoRows(env: Env, item: Node)
    ensures ResolveRows(env, item, []) == [] && IssuesOf(RejectedRows(env, item, [])) == []
  {
  }

  lemma {:induction false} RowsSplit(env: Env, item: Node, a: seq<Record>, b: seq<Record>)
    ensures ResolveRows(env, item, a + b) == ResolveRows(env, item, a) + ResolveRows(env, item, b)
    ensures IssuesOf(RejectedRows(env, item, a + b)) == IssuesOf(RejectedRows(env, item, a)) + IssuesOf(RejectedRows(env, item, b))
  {
    hide Realize;
    if a == [] {
      assert a + b == b;
    } else {
      assert (a + b)[1..] == a[1..] + b;
      RowsSplit(env, item, a[1..], b);
      var first := if Realize(env, item.id, Some(Row(a[0], None)), true).Rejected? then [item.id] else [];
      IssuesSplit(first, RejectedRows(env, item, a[1..] + b));
      IssuesSplit(first, RejectedRows(env, item, a[1..]));
    }
  }

  lemma IssuesSplit(a: seq<Id>, b: seq<Id>)
    ensures IssuesOf(a + b) == IssuesOf(a) + IssuesOf(b)
  {
  }
}
