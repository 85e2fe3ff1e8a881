/** Conservation of input operations over every run: each has one place, gets one outcome, and only
    its own attachment can give it. */
module TerminalSettlementTheorems {
  import opened Wrappers
  import opened TerminalInput
  import opened TerminalInputProofs
  import opened TerminalPlane
  import opened TerminalPlaneProofs
  import opened TerminalHistory
  import opened TerminalOutputTheorems

  // ---------------------------------------------------------------------------
  // One place, one outcome.
  // ---------------------------------------------------------------------------

  /** Every operation ever admitted or appended is queued, in flight, settled or released unsent:
      exactly one of the four, exactly once, in every reachable state. */
  lemma ExactlyOnePlace(fixedSubscription: bool, events: seq<Event>, t: nat)
    ensures var i := Run(Initial(fixedSubscription), events).input;
      multiset(QueuedTickets(i.queued))[t] + multiset(InflightTickets(i.inflight))[t]
      + multiset(SettledTickets(i.outcomes))[t] + multiset(i.released)[t] == if t < i.nextTicket then 1 else 0
  {
    hide WindowOk, GeometryOk, BytesOk, ChainsOk, OrderOk, FenceOk, SlotOk, UnsafeOk, LinkOk, OpeningsOk, QueuesOk,
         SerialOk, OutputOk;
    var i := Run(Initial(fixedSubscription), events).input;
    RunOk(fixedSubscription, events);
    IssuedOnce(i.nextTicket, t);
    assert Accounted(i.queued, i.inflight, i.outcomes, i.released)[t] == Issued(i.nextTicket)[t];
  }

  // ---------------------------------------------------------------------------
  // What a pump leaves alone.
  // ---------------------------------------------------------------------------

  predicate SameLogs(i: Input, j: Input) {
    && j.outcomes == i.outcomes && j.released == i.released && j.refusals == i.refusals && j.confirmed == i.confirmed
    && j.pending == i.pending && j.pasteAttempt == i.pasteAttempt && j.desired == i.desired && j.sent == i.sent
    && j.wires == i.wires
  }

  lemma {:induction false} FillKeepsLogs(i: Input, g: nat)
    ensures SameLogs(i, Fill(i, g))
    decreases |i.queued|
  {
    if |i.inflight| < MAX_INFLIGHT_INPUT_OPERATIONS && i.queued != [] {
      FillKeepsLogs(Append(i.(queued := i.queued[1..]), g, i.queued[0]), g);
    }
  }

  lemma PumpKeepsLogs(i: Input, gate: Gate)
    ensures SameLogs(i, Pump(i, gate))
  {
    if gate.Open() { FillKeepsLogs(SendGeometry(i, gate), gate.generation); }
  }

  // ---------------------------------------------------------------------------
  // Late links of an old attachment.
  // ---------------------------------------------------------------------------

  /** Only generation g's chain and wire moved. */
  ghost predicate OnlyChain(i: Input, j: Input, g: nat) {
    && j == i.(chains := j.chains, wires := j.wires)
    && forall h: nat :: h != g ==> j.Chain(h) == i.Chain(h) && j.Wire(h) == i.Wire(h)
  }

  /** The fence: no link of another generation is in the window, whatever id it carries. */
  lemma StaleLinkUnheld(i: Input, gate: Gate, g: nat)
    requires InputOk(i, gate) && g != gate.generation && i.Chain(g) != []
    ensures !Holds(PopHead(i, g), i.Chain(g)[0].item)
    ensures i.Chain(g)[0].item.generation == g
  {
    hide WindowOk, GeometryOk, BytesOk, OrderOk, SlotOk, UnsafeOk;
    var item := i.Chain(g)[0].item;
    HeadLinked(i, gate, g);
    forall k | 0 <= k < |i.inflight| ensures i.inflight[k].entry.ticket != item.entry.ticket {
      assert ChainBefore(Of(i.chains, g), i.inflight[k].entry.ticket);
    }
  }

  lemma StaleLinks(i: Input, gate: Gate, g: nat)
    requires InputOk(i, gate) && g != gate.generation && gate.stream != Some(g)
    ensures OnlyChain(i, ChainRun(i, gate, g), g) && OnlyChain(i, ChainCatch(i, gate, g), g)
    ensures OnlyChain(i, TerminalInput.SendDone(i, g), g) && OnlyChain(i, TerminalInput.SendFail(i, gate, g), g)
    ensures OnlyChain(i, AbortDone(i, g), g)
  {
    hide InputOk, Holds;
    if i.Chain(g) != [] {
      StaleLinkUnheld(i, gate, g);
    }
  }

  /** However late the send chain of a replaced attachment runs on, and although ids start again at 1
      in every attachment, it settles nothing, frees no window slot and sends nothing to another stream. */
  lemma StaleChainIsInert(fixedSubscription: bool, events: seq<Event>, g: nat)
    requires g != Run(Initial(fixedSubscription), events).life.generation
    ensures var p := Run(Initial(fixedSubscription), events);
      var gate := GateOf(p.life, p.route);
      && OnlyChain(p.input, ChainRun(p.input, gate, g), g) && OnlyChain(p.input, ChainCatch(p.input, gate, g), g)
      && OnlyChain(p.input, TerminalInput.SendDone(p.input, g), g)
      && OnlyChain(p.input, TerminalInput.SendFail(p.input, gate, g), g)
      && OnlyChain(p.input, AbortDone(p.input, g), g)
  {
    hide InputOk, OpeningsOk, QueuesOk, SerialOk, OutputOk, OnlyChain;
    var p := Run(Initial(fixedSubscription), events);
    RunOk(fixedSubscription, events);
    StaleLinks(p.input, GateOf(p.life, p.route), g);
  }

  // ---------------------------------------------------------------------------
  // Exactly which outcomes an event records.
  // ---------------------------------------------------------------------------

  /** An INPUT_RESULT frame of this attachment; its epoch does not matter. */
  predicate ResultPasses(p: Plane, a: Arrival) {
    && a.event.Frame? && a.event.body.InputResult?
    && !p.life.detached && a.tag == p.life.generation
    && a.event.route == p.life.subscription
    && (p.route.routeGeneration.Some? ==> p.route.routeGeneration.value == a.event.generation)
  }

  /** The outcome an INPUT_RESULT gives: that of the operation now in flight under its id, if any. */
  function ResultOutcome(i: Input, g: nat, body: Body): seq<Outcome>
    requires body.InputResult?
  {
    var k := IndexOf(i.inflight, body.operationId);
    if k < |i.inflight|
    then [Outcome(i.inflight[k].entry, Some(body.operationId), g, body.name, body.accepted, body.written)]
    else []
  }

  /** Everything event e settles when the attachment lasts. */
  function SettledBy(p: Plane, e: Event): seq<Outcome> {
    match e
    case EvDispatch(q, _) =>
      if Dispatches(p, q) && ResultPasses(p, p.route.Queue(q).items[0])
      then ResultOutcome(p.input, p.life.generation, p.route.Queue(q).items[0].event.body) else []
    case EvChainCatch(g) =>
      if HeadIs(p.input, g, Failed) && Holds(p.input, p.input.Chain(g)[0].item)
      then [Outcome(p.input.Chain(g)[0].item.entry, Some(p.input.Chain(g)[0].item.operationId), g, Cancelled, None, None)]
      else []
    case _ => []
  }

  /** The event queue is replaced exactly when the attachment is reset. */
  predicate AttachmentReset(p: Plane, q: Plane) { q.route.queueId != p.route.queueId }

  function LostOutcomes(p: Plane): seq<Outcome> {
    UnknownOutcomes(p.input.inflight) + CancelledOutcomes(p.input.queued, p.life.generation)
  }

  ghost predicate OutcomesAre(p: Plane, q: Plane, settled: seq<Outcome>) {
    if AttachmentReset(p, q)
    then q.input.outcomes == p.input.outcomes + LostOutcomes(p) && q.input.inflight == [] && q.input.queued == []
    else q.input.outcomes == p.input.outcomes + settled
  }

  lemma ResetOutcomes(p: Plane)
    ensures OutcomesAre(p, Reset(p), [])
    ensures OutcomesAre(p, CloseStream(p), [])
  {
    var i := p.input;
    assert i.outcomes + (UnknownOutcomes(i.inflight) + CancelledOutcomes(i.queued, p.life.generation))
        == i.outcomes + UnknownOutcomes(i.inflight) + CancelledOutcomes(i.queued, p.life.generation);
  }

  lemma RecoverOutcomes(p: Plane, hydration: nat)
    ensures OutcomesAre(p, RecoverRoute(p, hydration), [])
  {
    hide Abandon, UnknownOutcomes, CancelledOutcomes;
    ResetOutcomes(p);
    assert p.input.outcomes + [] == p.input.outcomes;
  }

  /** Seen from a plane with the same operations on the same attachment. */
  lemma OutcomesVia(p: Plane, via: Plane, q: Plane, settled: seq<Outcome>)
    requires via.input == p.input && via.route.queueId == p.route.queueId && via.life.generation == p.life.generation
    requires OutcomesAre(via, q, settled)
    ensures OutcomesAre(p, q, settled)
  {
  }

  lemma OutcomesKept(p: Plane, q: Plane)
    requires q.route.queueId == p.route.queueId && q.input.outcomes == p.input.outcomes
    ensures OutcomesAre(p, q, [])
  {
  }

  lemma AttachOutcomes(p: Plane, g: nat, reserved: Option<nat>)
    ensures OutcomesAre(p, AttachResume(p, g), []) && OutcomesAre(p, AttachReady(p, g, reserved), [])
    ensures OutcomesAre(p, AttachRejected(p, g), []) && OutcomesAre(p, AttachCleared(p, g), [])
    ensures OutcomesAre(p, MarkAttachSent(p, g), [])
  {
    hide OutcomesAre;
    OutcomesKept(p, AttachResume(p, g));
    OutcomesKept(p, AttachReady(p, g, reserved));
    OutcomesKept(p, AttachRejected(p, g));
    OutcomesKept(p, AttachCleared(p, g));
    OutcomesKept(p, MarkAttachSent(p, g));
  }

  lemma OpeningOutcomes(p: Plane, listener: nat, tag: nat, event: StreamEvent)
    ensures OutcomesAre(p, TransportRecovered(p), []) && OutcomesAre(p, RecoveryContinues(p), [])
    ensures OutcomesAre(p, Subscribe(p, listener), []) && OutcomesAre(p, Arrive(p, tag, event), [])
  {
    hide OutcomesAre, SendDetachOnce, Delivers;
    OutcomesKept(p, TransportRecovered(p));
    OutcomesKept(p, RecoveryContinues(p));
    OutcomesKept(p, Subscribe(p, listener));
    OutcomesKept(p, Arrive(p, tag, event));
  }

  lemma ClosingOutcomes(p: Plane, listener: nat)
    ensures OutcomesAre(p, TransportLost(p), []) && OutcomesAre(p, DetachPlane(p), [])
    ensures OutcomesAre(p, Unsubscribe(p, listener), [])
  {
    hide Reset, CloseStream, OutcomesAre;
    OutcomesKept(p, p);
    var life := TransportLostLife(p);
    ResetOutcomes(p.(life := life));
    OutcomesVia(p, p.(life := life), Reset(p.(life := life)), []);
    var gone := p.life.(detached := true, transportLost := false);
    ResetOutcomes(p.(life := gone));
    OutcomesVia(p, p.(life := gone), Reset(p.(life := gone)), []);
    if !p.life.detached { DetachedOutcomes(p, Reset(p.(life := gone)), DetachPlane(p)); }
    var less := p.(life := p.life.(listeners := p.life.listeners - {listener}));
    ResetOutcomes(less);
    OutcomesKept(p, less);
    OutcomesVia(p, less, CloseStream(less), []);
  }

  function TransportLostLife(p: Plane): Life {
    var sent := p.route.attached || (p.life.stream.Some? && p.life.stream.value.attachSent);
    p.life.(transportLost := true, lastAbandoned := Some(Abandoned(HeldNow(p.life, p.route), sent)))
  }

  lemma DetachedOutcomes(p: Plane, q: Plane, r: Plane)
    requires OutcomesAre(p, q, []) && r.input == q.input && r.route == q.route
    ensures OutcomesAre(p, r, [])
  {
  }

  lemma PumpedOutcomes(p: Plane, q: Plane)
    requires q.route.queueId == p.route.queueId && q.input.outcomes == p.input.outcomes
    ensures OutcomesAre(p, PumpPlane(q), [])
    ensures !q.life.detached ==> OutcomesAre(p, PumpPlane(EnsureAttached(q)), [])
  {
    PumpKeepsLogs(q.input, GateOf(q.life, q.route));
    PumpKeepsLogs(EnsureAttached(q).input, GateOf(EnsureAttached(q).life, EnsureAttached(q).route));
    OutcomesKept(p, PumpPlane(q));
    OutcomesKept(p, PumpPlane(EnsureAttached(q)));
  }

  lemma UserOutcomes(p: Plane, e: Event)
    requires e.EvSendInput? || e.EvResize? || e.EvPaste? || e.EvConfirm? || e.EvCancel? || e.EvConsentExpires?
    ensures OutcomesAre(p, Step(p, e), [])
  {
    hide OutcomesAre, PumpPlane, EnsureAttached, Admits;
    OutcomesKept(p, p);
    match e {
      case EvSendInput(op, n) =>
        var q := p.(input := AdmitInput(p.input, op, n));
        OutcomesKept(p, q);
        PumpedOutcomes(p, q);
      case EvResize(geometry) => PumpedOutcomes(p, p.(input := p.input.(desired := Some(geometry))));
      case EvPaste(units, data) =>
        var q := p.(input := AdmitPaste(BeginPaste(p.input), data));
        OutcomesKept(p, q);
        OutcomesKept(p, WritePaste(p, 0, data));
        OutcomesKept(p, p.(input := Refuse(BeginPaste(p.input), PasteTooLarge)));
        OutcomesKept(p, p.(input := Refuse(BeginPaste(p.input), PasteWhileDetached)));
        PumpedOutcomes(p, q);
      case EvConfirm(consent, _) =>
        OutcomesKept(p, p.(input := ReleaseConsent(p.input)));
        if p.input.pending.Some? {
          var q := p.(input := AdmitConfirmed(p.input));
          OutcomesKept(p, q);
          PumpedOutcomes(p, q);
        }
      case EvCancel(consent) => OutcomesKept(p, CancelPaste(p, consent));
      case EvConsentExpires(consent) => OutcomesKept(p, CancelPaste(p, consent));
    }
  }

  lemma AsideOutcomes(p: Plane, via: Plane, hydration: nat)
    requires via.input == p.input && via.route.queueId == p.route.queueId && via.life == p.life
    ensures OutcomesAre(p, via, []) && OutcomesAre(p, CloseStream(via), []) && OutcomesAre(p, RecoverRoute(via, hydration), [])
  {
    hide OutcomesAre;
    OutcomesKept(p, via);
    ResetOutcomes(via);
    RecoverOutcomes(via, hydration);
    OutcomesVia(p, via, CloseStream(via), []);
    OutcomesVia(p, via, RecoverRoute(via, hydration), []);
  }

  lemma ReaderOutcomes(p: Plane, q: nat, progress: Progress)
    ensures OutcomesAre(p, ReaderDone(p, q, progress), []) && OutcomesAre(p, ReaderFailed(p, q), [])
  {
    hide OutcomesAre, CloseStream, RecoverRoute;
    OutcomesKept(p, p);
    var ended := EndInstall(p, q);
    var install := p.route.Queue(q).install;
    AsideOutcomes(p, ended, if install.Some? then install.value.hydration else 0);
    if p.route.hydration.Some? {
      var h := p.route.hydration.value;
      AsideOutcomes(p, ended.(route := Arm(ended.route)), 0);
      AsideOutcomes(p, ended.(route := Arm(ended.route.(hydration := Some(h.(readyReceived := true))))), 0);
      AsideOutcomes(p, ended.(route := Arm(ended.route.(hydration := Some(h.(decoderFinished := true))))), 0);
    }
  }

  lemma InstallOutcomes(p: Plane, q: nat, hydration: nat)
    ensures OutcomesAre(p, StartInstall(p, q), []) && OutcomesAre(p, HydrationTimeout(p, hydration), [])
  {
    hide OutcomesAre, CloseStream, RecoverRoute;
    OutcomesKept(p, p);
    AsideOutcomes(p, EndInstall(p, q), 0);
    var queue := p.route.Queue(q);
    if queue.install.Some? {
      AsideOutcomes(p, p.(route := SetQueue(p.route, q, queue.(install := Some(queue.install.value.(reading := true))))), 0);
    }
    if p.route.hydration.Some? {
      AsideOutcomes(p, p.(route := p.route.(hydration := Some(p.route.hydration.value.(armed := false)))), hydration);
    }
  }

  lemma SettleRecords(i: Input, gate: Gate, item: Inflight, name: OutcomeName,
                      accepted: Option<nat>, written: Option<nat>, now: nat)
    ensures Settle(i, gate, item, name, accepted, written, now).outcomes == i.outcomes
      + if Holds(i, item) then [Outcome(item.entry, Some(item.operationId), item.generation, name, accepted, written)] else []
  {
    if Holds(i, item) {
      PumpKeepsLogs(Record(i, gate, item, name, accepted, written, now), gate);
    }
  }

  lemma ResultRecords(i: Input, gate: Gate, body: Body, now: nat)
    requires InputOk(i, gate) && body.InputResult?
    ensures SettleResult(i, gate, body.operationId, body.name, body.accepted, body.written, now).outcomes
      == i.outcomes + ResultOutcome(i, gate.generation, body)
  {
    hide GeometryOk, BytesOk, ChainsOk, OrderOk, FenceOk, UnsafeOk, SlotOk, Settle;
    var k := IndexOf(i.inflight, body.operationId);
    if k < |i.inflight| {
      SettleRecords(i, gate, i.inflight[k], body.name, body.accepted, body.written, now);
    }
  }

  /** Catching a failed send settles it only on its own attachment. */
  lemma CatchRecords(p: Plane, g: nat)
    requires PlaneOk(p)
    ensures OutcomesAre(p, p.(input := ChainCatch(p.input, GateOf(p.life, p.route), g)), SettledBy(p, EvChainCatch(g)))
  {
    hide InputOk, QueuesOk, SerialOk, OutputOk, DetachOk, ReattachOk, OpeningsOk, Settle, LinkOk, Holds;
    if HeadIs(p.input, g, Failed) {
      var item := p.input.Chain(g)[0].item;
      HeadLinked(p.input, GateOf(p.life, p.route), g);
      SettleRecords(PopHead(p.input, g), GateOf(p.life, p.route), item, Cancelled, None, None, 0);
      SameHolds(p.input, g, item);
    }
  }

  lemma SameHolds(i: Input, g: nat, item: Inflight)
    requires i.Chain(g) != []
    ensures Holds(PopHead(i, g), item) == Holds(i, item)
  {
  }

  /** A link that starts never settles its own operation: when its attachment is gone, so is the operation. */
  lemma RunRecords(p: Plane, g: nat)
    requires PlaneOk(p)
    ensures ChainRun(p.input, GateOf(p.life, p.route), g).outcomes == p.input.outcomes
  {
    hide InputOk, QueuesOk, SerialOk, OutputOk, DetachOk, ReattachOk, OpeningsOk, Settle, Holds;
    var gate := GateOf(p.life, p.route);
    if HeadIs(p.input, g, Waiting) {
      var item := p.input.Chain(g)[0].item;
      HeadLinked(p.input, gate, g);
      if g != p.life.generation {
        StaleLinkUnheld(p.input, gate, g);
        SettleRecords(PopHead(p.input, g), gate, item, Cancelled, None, None, 0);
      } else {
        ChainMeansOpen(p.input, gate);
        PumpKeepsLogs(Release(PopHead(p.input, g), item), gate);
      }
    }
  }

  lemma ChainMeansOpen(i: Input, gate: Gate)
    requires InputOk(i, gate) && i.Chain(gate.generation) != []
    ensures gate.stream.Some?
  {
    hide WindowOk, GeometryOk, BytesOk, OrderOk, FenceOk, UnsafeOk, SlotOk;
  }

  lemma ChainOutcomes(p: Plane, e: Event)
    requires PlaneOk(p)
    requires e.EvChainRun? || e.EvSendDone? || e.EvSendFail? || e.EvAbortDone?
    ensures OutcomesAre(p, Step(p, e), [])
  {
    hide PlaneOk, OutcomesAre, ChainRun;
    if e.EvChainRun? { RunRecords(p, e.generation); }
    OutcomesKept(p, Step(p, e));
  }

  lemma CompleteKeeps(p: Plane)
    requires p.route.hydration.Some?
    ensures CompleteHydration(p).input.outcomes == p.input.outcomes && CompleteHydration(p).route.queueId == p.route.queueId
  {
    var route := CompleteHydration(p).route;
    PumpKeepsLogs(p.input, GateOf(p.life, route));
  }

  lemma FinishOutcomes(p: Plane)
    requires PlaneOk(p) && p.life.stream.Some?
    ensures OutcomesAre(p, ReceiveFinish(p, p.life.generation), [])
  {
    hide PlaneOk, OutcomesAre, CompleteHydration, CloseStream;
    HydrationIsThere(p);
    AsideOutcomes(p, p, 0);
    var h := p.route.hydration.value;
    var q := p.(route := p.route.(hydration := Some(h.(historyIncomplete := h.historyIncomplete || !h.decoderFinished))));
    CompleteKeeps(q);
    OutcomesKept(p, CompleteHydration(q));
  }

  lemma AttachStateOutcomes(p: Plane, tag: nat, state: AttachState)
    ensures OutcomesAre(p, ReceiveAttachState(p, tag, state), [])
  {
    hide OutcomesAre, CloseStream, RecoverRoute, PumpPlane;
    AsideOutcomes(p, p, if p.route.hydration.Some? then p.route.hydration.value.id else 0);
    PumpedOutcomes(p, p.(route := p.route.(attached := true, acceptedEpoch := Some(0))));
  }

  lemma OtherOutcomes(p: Plane, q: nat, tag: nat, item: Item, code: int, epoch: nat, ready: bool)
    requires PlaneOk(p) && p.life.stream.Some? && tag == p.life.generation
    ensures OutcomesAre(p, ReceiveOutput(p, tag, item), []) && OutcomesAre(p, ReceiveExit(p, tag, code), [])
    ensures OutcomesAre(p, ReceiveHistoryUnavailable(p, tag), []) && OutcomesAre(p, ReceiveResync(p, tag, epoch), [])
    ensures OutcomesAre(p, BeginInstall(p, q, tag, ready), [])
  {
    hide PlaneOk, OutcomesAre, CloseStream, RecoverRoute, AdmitToLast, Overflows;
    HydrationIsThere(p);
    var h := p.route.hydration.value;
    AsideOutcomes(p, p, h.id);
    if ReceiveOutput(p, tag, item) != RecoverRoute(p, h.id) { OutcomesKept(p, ReceiveOutput(p, tag, item)); }
    OutcomesKept(p, ReceiveExit(p, tag, code));
    if h.readyReceived { OutcomesKept(p, ReceiveHistoryUnavailable(p, tag)); }
    OutcomesKept(p, ReceiveResync(p, tag, epoch));
    OutcomesKept(p, BeginInstall(p, q, tag, ready));
  }

  lemma ResultOutcomes(p: Plane, body: Body, now: nat)
    requires PlaneOk(p) && body.InputResult?
    ensures OutcomesAre(p, HandleBody(p, 0, 0, p.life.generation, body, now), ResultOutcome(p.input, p.life.generation, body))
  {
    hide InputOk, QueuesOk, SerialOk, DetachOk, ReattachOk, OpeningsOk, LinkOk, OutputOk, SettleResult,
         ResultOutcome;
    ResultRecords(p.input, GateOf(p.life, p.route), body, now);
  }

  lemma BodyOutcomes(p: Plane, q: nat, serial: nat, tag: nat, body: Body, now: nat)
    requires PlaneOk(p) && p.life.stream.Some? && tag == p.life.generation && !p.life.detached
    ensures OutcomesAre(p, HandleBody(p, q, serial, tag, body, now),
      if body.InputResult? then ResultOutcome(p.input, tag, body) else [])
  {
    hide PlaneOk, OutcomesAre, ReceiveOutput, ReceiveExit, ReceiveHistoryUnavailable, ReceiveResync, BeginInstall,
         ReceiveFinish, ReceiveAttachState, SettleResult, ResultOutcome;
    match body {
      case SnapshotFinish => FinishOutcomes(p);
      case AttachStateFrame(state) => AttachStateOutcomes(p, tag, state);
      case InputResult(_, _, _, _) => ResultOutcomes(p, body, now);
      case Output(payload) => OtherOutcomes(p, q, tag, Item(serial, payload), 0, 0, true);
      case ProcessExit(code) => OtherOutcomes(p, q, tag, Item(0, []), code, 0, true);
      case RouteResync(_, to) => OtherOutcomes(p, q, tag, Item(0, []), 0, to, true);
      case SnapshotReady(_) => OtherOutcomes(p, q, tag, Item(0, []), 0, 0, true);
      case SnapshotHistory(_) => OtherOutcomes(p, q, tag, Item(0, []), 0, 0, false);
      case HistoryUnavailable => OtherOutcomes(p, q, tag, Item(0, []), 0, 0, false);
      case Undecodable => OutcomesKept(p, p);
      case Modes => OutcomesKept(p, p);
    }
  }

  lemma ArrivalOutcomes(p: Plane, q: nat, a: Arrival, now: nat)
    requires PlaneOk(p) && (a.tag == p.life.generation ==> p.life.stream.Some?)
    ensures OutcomesAre(p, HandleArrival(p, q, a, now),
      if ResultPasses(p, a) then ResultOutcome(p.input, p.life.generation, a.event.body) else [])
  {
    hide PlaneOk, OutcomesAre, CloseStream, Reset, HandleBody, ResultOutcome;
    OutcomesKept(p, p);
    ResetOutcomes(p);
    if IsCurrent(p.life, a.tag) && a.event.Frame? {
      var fenced := p.(route := p.route.(routeGeneration := Some(a.event.generation)));
      FenceMoved(p, a.event.generation);
      BodyOutcomes(fenced, q, a.serial, a.tag, a.event.body, now);
      OutcomesVia(p, fenced, HandleBody(fenced, q, a.serial, a.tag, a.event.body, now),
                  if a.event.body.InputResult? then ResultOutcome(p.input, a.tag, a.event.body) else []);
      OutcomesKept(p, fenced);
    }
  }

  lemma DispatchOutcomes(p: Plane, q: nat, now: nat)
    requires PlaneOk(p)
    ensures OutcomesAre(p, Dispatch(p, q, now), SettledBy(p, EvDispatch(q, now)))
  {
    hide PlaneOk, OutcomesAre, HandleArrival, ResultOutcome, Admitted;
    OutcomesKept(p, p);
    if Dispatches(p, q) {
      var queue := p.route.Queue(q);
      assert queue == QueueOf(p.route.queues, q);
      DispatchHead(p, q);
      var popped := p.(route := SetQueue(p.route, q, queue.(items := queue.items[1..])));
      ArrivalOutcomes(popped, q, queue.items[0], now);
      OutcomesVia(p, popped, Dispatch(p, q, now), SettledBy(p, EvDispatch(q, now)));
    }
  }

  lemma OutcomesOnChain(p: Plane, e: Event)
    requires PlaneOk(p) && e.Chain()
    ensures OutcomesAre(p, OnChain(p, e), SettledBy(p, e))
  {
    hide PlaneOk, OutcomesAre, ResultOutcome, ChainRun, TerminalInput.SendDone, TerminalInput.SendFail, AbortDone,
         ChainCatch;
    match e {
      case EvChainCatch(g) => CatchRecords(p, g);
      case _ => ChainOutcomes(p, e);
    }
  }

  lemma OutcomesOnUser(p: Plane, e: Event)
    requires PlaneOk(p) && e.User()
    ensures OutcomesAre(p, OnUser(p, e), SettledBy(p, e))
  {
    hide PlaneOk, OutcomesAre, ResultOutcome, Subscribe, Unsubscribe, SendInput, ResizeTo, WritePaste, Confirm,
         CancelPaste;
    match e {
      case EvSubscribe(l) => OpeningOutcomes(p, l, 0, Closed(0, false));
      case EvUnsubscribe(l) => ClosingOutcomes(p, l);
      case EvBindReader => OutcomesKept(p, p.(route := p.route.(readerBound := true)));
      case _ => UserOutcomes(p, e);
    }
  }

  lemma OutcomesOnDelivery(p: Plane, e: Event)
    requires PlaneOk(p) && e.Delivery()
    ensures OutcomesAre(p, OnDelivery(p, e), SettledBy(p, e))
  {
    hide PlaneOk, OutcomesAre, ResultOutcome, Arrive, Dispatch, StartInstall, ReaderDone, ReaderFailed,
         HydrationTimeout;
    match e {
      case EvArrive(tag, event) => OpeningOutcomes(p, 0, tag, event);
      case EvDispatch(q, now) => DispatchOutcomes(p, q, now);
      case EvStartInstall(q) => InstallOutcomes(p, q, 0);
      case EvReaderDone(q, progress) => ReaderOutcomes(p, q, progress);
      case EvReaderFailed(q) => ReaderOutcomes(p, q, ReaderPage);
      case EvHydrationTimeout(h) => InstallOutcomes(p, 0, h);
    }
  }

  lemma OutcomesOnLifecycle(p: Plane, e: Event)
    requires PlaneOk(p) && !e.User() && !e.Chain() && !e.Delivery()
    ensures OutcomesAre(p, OnLifecycle(p, e), SettledBy(p, e))
  {
    hide PlaneOk, OutcomesAre, ResultOutcome, AttachResume, MarkAttachSent, AttachReady, AttachRejected,
         AttachCleared, TransportLost, TransportRecovered, RecoveryContinues, DetachPlane;
    match e {
      case EvAttachResume(g) => AttachOutcomes(p, g, None);
      case EvAttachSent(g) => AttachOutcomes(p, g, None);
      case EvAttachReady(g, reserved) => AttachOutcomes(p, g, reserved);
      case EvAttachRejected(g) => AttachOutcomes(p, g, None);
      case EvAttachCleared(g) => AttachOutcomes(p, g, None);
      case EvTransportLost => ClosingOutcomes(p, 0);
      case EvRouteChannelClosed(_) => ClosingOutcomes(p, 0); OutcomesKept(p, p);
      case EvTransportRecovered => OpeningOutcomes(p, 0, 0, Closed(0, false));
      case EvRecoveryContinues => OpeningOutcomes(p, 0, 0, Closed(0, false));
      case EvDetach => ClosingOutcomes(p, 0);
    }
  }

  /** Exactly the outcomes any event records: a result settles the operation now in flight under its
      id, a failed send its own operation while it is still in flight, a reset ends everything in
      flight as unknown and everything queued as cancelled, and nothing else settles anything. */
  lemma OutcomesExact(p: Plane, e: Event)
    requires PlaneOk(p)
    ensures OutcomesAre(p, Step(p, e), SettledBy(p, e))
  {
    hide PlaneOk, OutcomesAre, OnUser, OnChain, OnDelivery, OnLifecycle;
    if e.User() {
      OutcomesOnUser(p, e);
    } else if e.Chain() {
      OutcomesOnChain(p, e);
    } else if e.Delivery() {
      OutcomesOnDelivery(p, e);
    } else {
      OutcomesOnLifecycle(p, e);
    }
  }
}
