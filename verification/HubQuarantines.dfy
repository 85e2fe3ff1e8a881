/** Who owns the feedback of a quarantine row: results and refreshes settle only the operation that was
    started last on the row. */
module HubQuarantines {
  import opened Wrappers

  datatype Outcome = Pending | Refreshing | Refused(message: string) | ResolvedStale(message: string) | Failed(message: string)

  datatype Row = Row(outcome: Outcome, operationId: nat, quarantinedAt: Option<int>)

  type Rows = map<string, Row>

  datatype Target = Package(name: string) | RepositorySessionTypes(root: string)

  function TargetKey(target: Target): string {
    match target
    case Package(name) => "package:" + name
    case RepositorySessionTypes(root) => "repository_session_types:" + root
  }

  /** Different targets never share a row. */
  lemma KeysAreTheTargets(a: Target, b: Target)
    ensures TargetKey(a) == TargetKey(b) <==> a == b
  {
    if a.Package? != b.Package? {
      assert TargetKey(a)[0] != TargetKey(b)[0];
    } else if a.Package? {
      assert TargetKey(a)[8..] == a.name && TargetKey(b)[8..] == b.name;
    } else {
      assert TargetKey(a)[25..] == a.root && TargetKey(b)[25..] == b.root;
    }
  }

  // ---------------------------------------------------------------------------
  // The three transitions.
  // ---------------------------------------------------------------------------

  function Replace(rows: Rows, key: string, outcome: Option<Outcome>): Rows
    requires key in rows
  {
    if outcome.Some? then rows[key := rows[key].(outcome := outcome.value)] else rows - {key}
  }

  function StartResolve(rows: Rows, key: string, operationId: nat, quarantinedAt: Option<int>): Rows {
    rows[key := Row(Pending, operationId, quarantinedAt)]
  }

  function SettleResult(rows: Rows, key: string, operationId: nat, outcome: Outcome): Rows {
    if key !in rows || rows[key].operationId != operationId || rows[key].outcome != Pending then rows
    else Replace(rows, key, Some(outcome))
  }

  function SettleRefresh(rows: Rows, key: string, operationId: nat, outcome: Option<Outcome>): Rows {
    if key !in rows || rows[key].operationId != operationId
       || (rows[key].outcome != Pending && rows[key].outcome != Refreshing) then rows
    else Replace(rows, key, outcome)
  }

  /** The outcome shown for a listing: an outcome of an earlier listing of the target does not apply. */
  function RowOutcome(rows: Rows, target: Target, quarantinedAt: Option<int>): Option<Outcome> {
    var key := TargetKey(target);
    if key in rows && rows[key].quarantinedAt == quarantinedAt then Some(rows[key].outcome) else None
  }

  // ---------------------------------------------------------------------------
  // Any interleaving.
  // ---------------------------------------------------------------------------

  datatype Event =
    | Start(key: string, operationId: nat, quarantinedAt: Option<int>)
    | Result(key: string, operationId: nat, outcome: Outcome)
    | Refresh(key: string, operationId: nat, settled: Option<Outcome>)

  function Step(rows: Rows, e: Event): Rows {
    match e
    case Start(key, id, at) => StartResolve(rows, key, id, at)
    case Result(key, id, outcome) => SettleResult(rows, key, id, outcome)
    case Refresh(key, id, settled) => SettleRefresh(rows, key, id, settled)
  }

  function Run(events: seq<Event>): Rows {
    if events == [] then map[] else Step(Run(events[..|events| - 1]), events[|events| - 1])
  }

  function RowAt(rows: Rows, key: string): Option<Row> { if key in rows then Some(rows[key]) else None }

  /** The operation started last on a key. */
  function LastStarted(events: seq<Event>, key: string): Option<nat> {
    if events == [] then None
    else
      var last := events[|events| - 1];
      if last.Start? && last.key == key then Some(last.operationId) else LastStarted(events[..|events| - 1], key)
  }

  /** The events of one operation on one key. */
  function Own(events: seq<Event>, key: string, operationId: nat): seq<Event> {
    if events == [] then []
    else
      Own(events[..|events| - 1], key, operationId)
      + if events[|events| - 1].key == key && events[|events| - 1].operationId == operationId then [events[|events| - 1]] else []
  }

  lemma RunMore(events: seq<Event>, e: Event)
    ensures Run(events + [e]) == Step(Run(events), e)
  {
    assert (events + [e])[..|events|] == events;
  }

  /** What an event on a row's own key does to the row. */
  function StepRow(row: Option<Row>, e: Event): Option<Row> {
    match e
    case Start(_, id, at) => Some(Row(Pending, id, at))
    case Result(_, id, outcome) =>
      if row.None? || row.value.operationId != id || row.value.outcome != Pending then row
      else Some(row.value.(outcome := outcome))
    case Refresh(_, id, settled) =>
      if row.None? || row.value.operationId != id || (row.value.outcome != Pending && row.value.outcome != Refreshing) then row
      else if settled.Some? then Some(row.value.(outcome := settled.value)) else None
  }

  /** Rows are independent. */
  lemma RowsAlone(rows: Rows, e: Event, key: string)
    ensures RowAt(Step(rows, e), key) == if e.key == key then StepRow(RowAt(rows, key), e) else RowAt(rows, key)
  {
  }

  lemma OwnRow(front: seq<Event>, last: Event, key: string, operationId: nat)
    ensures RowAt(Run(Own(front + [last], key, operationId)), key)
      == if last.key == key && last.operationId == operationId
         then StepRow(RowAt(Run(Own(front, key, operationId)), key), last)
         else RowAt(Run(Own(front, key, operationId)), key)
  {
    hide Step, StepRow;
    assert (front + [last])[..|front|] == front;
    var own := Own(front, key, operationId);
    if last.key == key && last.operationId == operationId {
      assert Own(front + [last], key, operationId) == own + [last];
      RunMore(own, last);
      RowsAlone(Run(own), last, key);
    } else {
      assert Own(front + [last], key, operationId) == own;
    }
  }

  /** A row's feedback is what the events of the operation started last on it give alone, whatever the
      results and refreshes of other operations, on this row or any other, did in between. */
  lemma {:induction false} RowBelongsToLastStarted(events: seq<Event>, key: string)
    ensures LastStarted(events, key).None? ==> RowAt(Run(events), key).None?
    ensures LastStarted(events, key).Some? ==>
      RowAt(Run(events), key) == RowAt(Run(Own(events, key, LastStarted(events, key).value)), key)
    ensures RowAt(Run(events), key).Some? ==> Some(RowAt(Run(events), key).value.operationId) == LastStarted(events, key)
  {
    hide Step, RowAt, Own;
    if events == [] {
      EmptyRow(key);
    } else {
      var front, last := events[..|events| - 1], events[|events| - 1];
      assert forall k :: 0 <= k < |front| ==> front[k] == events[k];
      assert events == front + [last];
      RowBelongsToLastStarted(front, key);
      RunMore(front, last);
      RowsAlone(Run(front), last, key);
      var id := LastStarted(events, key);
      if id.Some? {
        OwnRow(front, last, key, id.value);
      }
    }
  }

  lemma EmptyRow(key: string)
    ensures RowAt(Run([]), key).None?
  {
  }

  /** For a pending operation, its result and its refresh may come in either order with the same row exactly
      when the result only says that the refresh is on its way, or says what the refresh says. */
  lemma OrdersAgreeIff(rows: Rows, key: string, id: nat, outcome: Outcome, settled: Option<Outcome>)
    requires key in rows && rows[key].operationId == id && rows[key].outcome == Pending
    requires settled.None? || settled.value.ResolvedStale?
    ensures RowAt(SettleRefresh(SettleResult(rows, key, id, outcome), key, id, settled), key)
         == RowAt(SettleResult(SettleRefresh(rows, key, id, settled), key, id, outcome), key)
      <==> outcome == Pending || outcome == Refreshing || settled == Some(outcome)
  {
  }

  /** An outcome is shown only for the listing its operation was dispatched for. */
  lemma ShownForItsListing(events: seq<Event>, target: Target, quarantinedAt: Option<int>)
    requires RowOutcome(Run(events), target, quarantinedAt).Some?
    ensures exists k :: 0 <= k < |events| && events[k] == Start(TargetKey(target), Run(events)[TargetKey(target)].operationId, quarantinedAt)
  {
    RowStarted(events, TargetKey(target));
  }

  lemma {:induction false} RowStarted(events: seq<Event>, key: string)
    requires key in Run(events)
    ensures exists k :: 0 <= k < |events| && events[k] == Start(key, Run(events)[key].operationId, Run(events)[key].quarantinedAt)
  {
    var front, last := events[..|events| - 1], events[|events| - 1];
    if last.Start? && last.key == key {
      assert events[|events| - 1] == Start(key, Run(events)[key].operationId, Run(events)[key].quarantinedAt);
    } else {
      RowStarted(front, key);
      var k :| 0 <= k < |front| && front[k] == Start(key, Run(front)[key].operationId, Run(front)[key].quarantinedAt);
      assert events[k] == Start(key, Run(events)[key].operationId, Run(events)[key].quarantinedAt);
    }
  }
}
