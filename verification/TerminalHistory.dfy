/** What no event can undo: logs only grow, past segments are settled, a withdrawn consent stays
    withdrawn, and a publicly detached plane attaches and detaches no more. */
module TerminalHistory {
  import opened Wrappers
  import opened TerminalInput
  import opened TerminalInputProofs
  import opened TerminalPlane
  import opened TerminalPlaneProofs

  // ---------------------------------------------------------------------------
  // The three relations; each is reflexive and transitive.
  // ---------------------------------------------------------------------------

  ghost predicate LaterInput(i: Input, j: Input) {
    match j
    case Input(_, _, _, _, _, _, _, _, _, _, _, _, _, _, _) =>
      && i.nextTicket <= j.nextTicket
      && i.outcomes <= j.outcomes && i.released <= j.released && i.refusals <= j.refusals
      && i.confirmed <= j.confirmed
      && WiresGrow(i.wires, j.wires)
      && ConsentMoves(i.pending, i.outcomes, j.pending)
      && ConfirmationsFollow(i.pending, i.outcomes, i.confirmed, j.confirmed)
  }

  ghost predicate WiresGrow(w: map<nat, seq<WireFrame>>, v: map<nat, seq<WireFrame>>) {
    forall g: nat :: Of(w, g) <= Of(v, g)
  }

  /** A pending consent was pending before, or comes from a refusal recorded since. */
  ghost predicate ConsentMoves(before: Option<PendingPaste>, outcomes: seq<Outcome>, after: Option<PendingPaste>) {
    after.Some? ==> after == before || after.value.rejection >= |outcomes|
  }

  /** A new confirmation answers the consent pending before, or a refusal recorded since. */
  ghost predicate ConfirmationsFollow(before: Option<PendingPaste>, outcomes: seq<Outcome>,
                                      confirmed: seq<Confirmation>, confirmed': seq<Confirmation>) {
    forall k :: |confirmed| <= k < |confirmed'| ==>
      || confirmed'[k].rejection >= |outcomes|
      || (before.Some? && confirmed'[k].rejection == before.value.rejection)
  }

  ghost predicate LaterLife(l: Life, m: Life) {
    && (l.detached ==> m.detached && m.openings == l.openings && m.detaches == l.detaches && m.reattaches == l.reattaches)
    && l.generation <= m.generation && l.recoveryEpoch <= m.recoveryEpoch && l.minted <= m.minted
    && l.openings <= m.openings && l.detaches <= m.detaches && l.reattaches <= m.reattaches
    && l.fixedSubscription == m.fixedSubscription
    && (m.detachSentFor.Some? ==> m.detachSentFor == l.detachSentFor || m.detachSentFor.value in m.detaches)
  }

  /** All segments but the last stay as they are, and so does the last once its hydration is gone. */
  ghost predicate LaterSegments(s: seq<Segment>, h: Option<Hydration>, t: seq<Segment>, k: Option<Hydration>) {
    && |s| <= |t|
    && (forall n :: 0 <= n < |s| - 1 ==> t[n] == s[n])
    && (s != [] ==>
          var m := |s| - 1;
          && t[m].generation == s[m].generation && s[m].admitted <= t[m].admitted && (s[m].finished ==> t[m].finished)
          && (h.None? ==> t[m] == s[m]))
    && (h.None? && |t| == |s| ==> k.None?)
  }

  ghost predicate LaterRoute(r: Route, s: Route) {
    match s
    case Route(_, _, _, _, _, _, _, _, _, _, _, _) =>
      && r.arrivals <= s.arrivals && r.delivered <= s.delivered && r.exits <= s.exits
      && r.nextHydration <= s.nextHydration && r.queueId <= s.queueId
      && LaterSegments(r.segments, r.hydration, s.segments, s.hydration)
  }

  ghost predicate Later(p: Plane, q: Plane) {
    LaterLife(p.life, q.life) && LaterRoute(p.route, q.route) && LaterInput(p.input, q.input)
  }

  lemma LaterInputChain(i: Input, j: Input, k: Input)
    requires LaterInput(i, j) && LaterInput(j, k)
    ensures LaterInput(i, k)
  {
    forall n | |i.confirmed| <= n < |k.confirmed|
      ensures k.confirmed[n].rejection >= |i.outcomes|
           || (i.pending.Some? && k.confirmed[n].rejection == i.pending.value.rejection)
    {
      if n < |j.confirmed| { assert j.confirmed[n] == k.confirmed[n]; }
    }
    forall g: nat ensures Of(i.wires, g) <= Of(k.wires, g) {
      assert Of(i.wires, g) <= Of(j.wires, g) <= Of(k.wires, g);
    }
  }

  lemma LaterRouteChain(r: Route, s: Route, t: Route)
    requires LaterRoute(r, s) && LaterRoute(s, t)
    ensures LaterRoute(r, t)
  {
  }

  lemma LaterChain(p: Plane, q: Plane, r: Plane)
    requires Later(p, q) && Later(q, r)
    ensures Later(p, r)
  {
    hide LaterRoute, LaterInput;
    LaterInputChain(p.input, q.input, r.input);
    LaterRouteChain(p.route, q.route, r.route);
  }

  lemma InputStays(i: Input)
    ensures LaterInput(i, i)
  {
  }

  // ---------------------------------------------------------------------------
  // Input operations.
  // ---------------------------------------------------------------------------

  lemma MovedUp(i: Input, g: nat)
    requires i.queued != []
    ensures LaterInput(i, Append(i.(queued := i.queued[1..]), g, i.queued[0]))
  {
  }

  lemma {:induction false} FillLater(i: Input, g: nat)
    ensures LaterInput(i, Fill(i, g))
    decreases |i.queued|
  {
    hide LaterInput;
    InputStays(i);
    if |i.inflight| < MAX_INFLIGHT_INPUT_OPERATIONS && i.queued != [] {
      var j := Append(i.(queued := i.queued[1..]), g, i.queued[0]);
      MovedUp(i, g);
      FillLater(j, g);
      LaterInputChain(i, j, Fill(j, g));
    }
  }

  lemma PumpLater(i: Input, gate: Gate)
    ensures LaterInput(i, Pump(i, gate))
  {
    var j := SendGeometry(i, gate);
    assert LaterInput(i, j);
    FillLater(j, gate.generation);
    LaterInputChain(i, j, Fill(j, gate.generation));
  }

  lemma SettleLater(i: Input, gate: Gate, item: Inflight, name: OutcomeName,
                    accepted: Option<nat>, written: Option<nat>, now: nat)
    ensures LaterInput(i, Settle(i, gate, item, name, accepted, written, now))
  {
    InputStays(i);
    if Holds(i, item) {
      var j := Record(i, gate, item, name, accepted, written, now);
      assert LaterInput(i, j);
      PumpLater(j, gate);
      LaterInputChain(i, j, Pump(j, gate));
    }
  }

  lemma SettleResultLater(i: Input, gate: Gate, id: nat, name: OutcomeName,
                          accepted: Option<nat>, written: Option<nat>, now: nat)
    ensures LaterInput(i, SettleResult(i, gate, id, name, accepted, written, now))
  {
    InputStays(i);
    var k := IndexOf(i.inflight, id);
    if k < |i.inflight| && i.inflight[k].generation == gate.generation {
      SettleLater(i, gate, i.inflight[k], name, accepted, written, now);
    }
  }

  lemma AbandonLater(i: Input, g: nat)
    ensures LaterInput(i, Abandon(i, g))
  {
    assert i.outcomes <= i.outcomes + UnknownOutcomes(i.inflight) + CancelledOutcomes(i.queued, g);
  }

  lemma AdmissionLater(i: Input, gate: Gate, op: Operation, requestedBytes: nat, data: Bytes)
    ensures LaterInput(i, AdmitInput(i, op, requestedBytes))
    ensures LaterInput(i, AdmitPaste(BeginPaste(i), data))
    ensures i.pending.Some? ==> LaterInput(i, AdmitConfirmed(i))
  {
    InputLater(i, op, requestedBytes);
    PasteLater(i, data);
    if i.pending.Some? { ConfirmedLater(i); }
  }

  lemma InputLater(i: Input, op: Operation, requestedBytes: nat)
    ensures LaterInput(i, AdmitInput(i, op, requestedBytes))
  {
    hide Admits;
  }

  lemma PasteLater(i: Input, data: Bytes)
    ensures LaterInput(i, AdmitPaste(BeginPaste(i), data))
  {
    hide Admits;
  }

  lemma ConfirmedLater(i: Input)
    requires i.pending.Some?
    ensures LaterInput(i, AdmitConfirmed(i))
  {
    hide Admits;
  }

  lemma PopLater(i: Input, g: nat)
    requires i.Chain(g) != []
    ensures LaterInput(i, PopHead(i, g))
  {
  }

  lemma OfferLater(i: Input, g: nat, job: Job, frame: WireFrame)
    requires i.Chain(g) != []
    ensures LaterInput(i, SetHead(i, g, job)) && LaterInput(i, Offer(SetHead(i, g, job), g, frame))
  {
  }

  lemma StartSendingLater(i: Input, g: nat, item: Inflight, sent: Option<Geometry>)
    requires i.Chain(g) != []
    ensures LaterInput(i, StartSending(i.(sent := sent), g, item)) && LaterInput(i, StartSending(i, g, item))
  {
    var j := i.(sent := sent);
    OfferLater(i, g, Job(item, Sending(0)), WireFrame(item, Data(0)));
    OfferLater(i, g, Job(item, Failed), WireFrame(item, Data(0)));
    OfferLater(j, g, Job(item, Sending(0)), WireFrame(item, Data(0)));
    OfferLater(j, g, Job(item, Failed), WireFrame(item, Data(0)));
  }

  lemma StartGeometryLater(i: Input, gate: Gate, g: nat, item: Inflight)
    requires i.Chain(g) != []
    ensures LaterInput(i, StartGeometry(i, gate, g, item))
  {
    if i.desired.Some? && gate.hydrated && i.sent != i.desired {
      StartSendingLater(i, g, item.(entry := item.entry.(op := Resize(i.desired.value))), i.desired);
    } else {
      var j := Release(PopHead(i, g), item);
      PopLater(i, g);
      assert LaterInput(PopHead(i, g), j);
      LaterInputChain(i, PopHead(i, g), j);
      PumpLater(j, gate);
      LaterInputChain(i, j, Pump(j, gate));
    }
  }

  lemma PopAndSettleLater(i: Input, gate: Gate, g: nat)
    requires i.Chain(g) != []
    ensures LaterInput(i, Settle(PopHead(i, g), gate, i.Chain(g)[0].item, Cancelled, None, None, 0))
  {
    hide LaterInput;
    var item := i.Chain(g)[0].item;
    PopLater(i, g);
    SettleLater(PopHead(i, g), gate, item, Cancelled, None, None, 0);
    LaterInputChain(i, PopHead(i, g), Settle(PopHead(i, g), gate, item, Cancelled, None, None, 0));
  }

  lemma ChainRunLater(i: Input, gate: Gate, g: nat)
    ensures LaterInput(i, ChainRun(i, gate, g))
  {
    hide LaterInput;
    InputStays(i);
    if HeadIs(i, g, Waiting) {
      var item := i.Chain(g)[0].item;
      PopAndSettleLater(i, gate, g);
      StartGeometryLater(i, gate, g, item);
      StartSendingLater(i, g, item, i.sent);
    }
  }

  lemma SendLater(i: Input, gate: Gate, g: nat)
    ensures LaterInput(i, TerminalInput.SendDone(i, g)) && LaterInput(i, TerminalInput.SendFail(i, gate, g))
    ensures LaterInput(i, AbortDone(i, g))
  {
    hide LaterInput;
    InputStays(i);
    if i.Chain(g) != [] {
      var item := i.Chain(g)[0].item;
      PopLater(i, g);
      OfferLater(i, g, Job(item, Aborting), WireFrame(item, Abort));
      OfferLater(i, g, Job(item, Failed), WireFrame(item, Abort));
      if i.Chain(g)[0].phase.Sending? {
        var next := i.Chain(g)[0].phase.index + 1;
        OfferLater(i, g, Job(item, Sending(next)), WireFrame(item, Data(next)));
      }
    }
  }

  lemma ChainCatchLater(i: Input, gate: Gate, g: nat)
    ensures LaterInput(i, ChainCatch(i, gate, g))
  {
    hide LaterInput;
    InputStays(i);
    if HeadIs(i, g, Failed) {
      PopAndSettleLater(i, gate, g);
    }
  }

  // ---------------------------------------------------------------------------
  // Plane operations.
  // ---------------------------------------------------------------------------

  lemma Stays(p: Plane)
    ensures Later(p, p)
  {
  }

  lemma PumpPlaneLater(p: Plane)
    ensures Later(p, PumpPlane(p))
  {
    hide LaterInput;
    PumpLater(p.input, GateOf(p.life, p.route));
  }

  lemma ResetLater(p: Plane)
    ensures Later(p, Reset(p))
  {
    hide LaterInput;
    AbandonLater(p.input, p.life.generation);
  }

  lemma LifeOnly(p: Plane, life: Life)
    requires LaterLife(p.life, life)
    ensures Later(p, p.(life := life))
  {
  }

  lemma InputOnly(p: Plane, input: Input)
    requires LaterInput(p.input, input)
    ensures Later(p, p.(input := input))
  {
    hide LaterInput;
  }

  lemma RouteOnly(p: Plane, route: Route)
    requires LaterRoute(p.route, route)
    ensures Later(p, p.(route := route))
  {
    hide LaterInput;
    InputStays(p.input);
  }

  /** Closing after `life` recorded how. */
  lemma ResetAfter(p: Plane, life: Life)
    requires LaterLife(p.life, life)
    ensures Later(p, Reset(p.(life := life)))
  {
    hide LaterInput, LaterRoute, LaterLife, Later;
    LifeOnly(p, life);
    ResetLater(p.(life := life));
    LaterChain(p, p.(life := life), Reset(p.(life := life)));
  }

  lemma EnsureAttachedLater(p: Plane)
    requires !p.life.detached
    ensures Later(p, EnsureAttached(p))
  {
  }

  lemma CloseStreamLater(p: Plane)
    requires PlaneOk(p)
    ensures Later(p, CloseStream(p))
  {
    hide InputOk, QueuesOk, SerialOk, OutputOk, DetachOk, ReattachOk, OpeningsOk;
    ResetAfter(p, p.life);
    if p.life.stream.Some? {
      ResetAfter(p, SendDetachOnce(p.life, HeldNow(p.life, p.route)));
    }
  }

  lemma RecoverRouteLater(p: Plane, hydration: nat)
    requires PlaneOk(p) && !p.life.detached
    ensures Later(p, RecoverRoute(p, hydration))
  {
    hide InputOk, QueuesOk, SerialOk, OutputOk, DetachOk, ReattachOk, OpeningsOk, LaterInput, LaterRoute, LinkOk,
         Abandon;
    Stays(p);
    CloseStreamLater(p);
    if p.route.hydration.Some? && p.route.hydration.value.id == hydration
       && !(p.life.snapshotRecoveries >= 1 || p.life.fixedSubscription) {
      var life := p.life.(snapshotRecoveries := p.life.snapshotRecoveries + 1,
                          reattaches := p.life.reattaches + [p.life.recoveryEpoch]);
      var sent := if life.stream.Some? then SendDetachOnce(life, HeldNow(life, p.route)) else life;
      var q := Reset(p.(life := sent));
      ResetAfter(p, sent);
      LifeOnly(q, MintSubscription(q.life));
      LaterChain(p, q, q.(life := MintSubscription(q.life)));
      EnsureAttachedLater(q.(life := MintSubscription(q.life)));
      LaterChain(p, q.(life := MintSubscription(q.life)), RecoverRoute(p, hydration));
    }
  }

  lemma AttachResumeLater(p: Plane, g: nat)
    requires PlaneOk(p)
    ensures Later(p, AttachResume(p, g))
  {
    hide InputOk, QueuesOk, SerialOk, OutputOk, DetachOk, ReattachOk, OpeningsOk, LaterInput;
    InputStays(p.input);
  }

  lemma AttachProgressLater(p: Plane, g: nat, reserved: Option<nat>)
    ensures Later(p, AttachReady(p, g, reserved)) && Later(p, AttachRejected(p, g))
    ensures Later(p, AttachCleared(p, g)) && Later(p, MarkAttachSent(p, g))
  {
    hide LaterInput;
    InputStays(p.input);
  }

  lemma TransportLostLater(p: Plane)
    ensures Later(p, TransportLost(p))
  {
    hide LaterInput, LaterRoute;
    Stays(p);
    if !p.life.detached && !p.life.transportLost {
      var sent := p.route.attached || (p.life.stream.Some? && p.life.stream.value.attachSent);
      ResetAfter(p, p.life.(transportLost := true, lastAbandoned := Some(Abandoned(HeldNow(p.life, p.route), sent))));
    }
  }

  lemma AttachAfter(p: Plane, life: Life)
    requires LaterLife(p.life, life) && !life.detached
    ensures Later(p, EnsureAttached(p.(life := life)))
  {
    hide LaterInput, LaterRoute, LaterLife, Later;
    LifeOnly(p, life);
    EnsureAttachedLater(p.(life := life));
    LaterChain(p, p.(life := life), EnsureAttached(p.(life := life)));
  }

  lemma TransportRecoveredLater(p: Plane)
    ensures Later(p, TransportRecovered(p))
  {
    hide LaterInput, LaterRoute, Later;
    Stays(p);
    if !p.life.detached && p.life.transportLost && p.life.listeners != {} {
      var life := p.life.(transportLost := false, snapshotRecoveries := 0, lastAbandoned := None,
                          recoveryEpoch := p.life.recoveryEpoch + 1);
      AttachAfter(p, life);
      AttachAfter(p, MintSubscription(life));
      if p.life.lastAbandoned.Some? {
        var sent := SendDetachOnce(MintSubscription(life), p.life.lastAbandoned.value.held);
        LifeOnly(p, sent.(continuations := sent.continuations + 1));
      }
    }
  }

  lemma RecoveryContinuesLater(p: Plane)
    ensures Later(p, RecoveryContinues(p))
  {
    hide LaterInput, LaterRoute, Later;
    Stays(p);
    if p.life.continuations != 0 {
      var life := p.life.(continuations := p.life.continuations - 1);
      LifeOnly(p, life);
      if !p.life.detached { AttachAfter(p, life); }
    }
  }

  lemma DetachPlaneLater(p: Plane)
    ensures Later(p, DetachPlane(p))
  {
    hide LaterInput, LaterRoute, Later;
    Stays(p);
    if !p.life.detached {
      var held := HeldNow(p.life, p.route);
      AbandonLater(p.input, p.life.generation);
      DetachedLater(p, held);
    }
  }

  lemma DetachedLater(p: Plane, held: Held)
    requires !p.life.detached && LaterInput(p.input, Abandon(p.input, p.life.generation))
    requires held == HeldNow(p.life, p.route)
    ensures Later(p, DetachPlane(p))
  {
    hide LaterInput;
  }

  lemma ListenersLater(p: Plane, listener: nat)
    ensures Later(p, Subscribe(p, listener)) && Later(p, Unsubscribe(p, listener))
  {
    hide LaterInput, LaterRoute, Later;
    var more := p.life.(listeners := p.life.listeners + {listener});
    LifeOnly(p, more);
    if !p.life.detached { AttachAfter(p, more); }
    var less := p.life.(listeners := p.life.listeners - {listener});
    LifeOnly(p, less);
    ResetAfter(p, less);
    if !p.life.detached { ResetAfter(p, SendDetachOnce(less, HeldNow(less, p.route))); }
  }

  lemma AdmittedLater(p: Plane, input: Input)
    requires !p.life.detached && LaterInput(p.input, input)
    ensures Later(p, PumpPlane(EnsureAttached(p.(input := input))))
  {
    hide LaterInput, LaterRoute, Later, LaterLife;
    var q := p.(input := input);
    InputOnly(p, input);
    EnsureAttachedLater(q);
    PumpPlaneLater(EnsureAttached(q));
    LaterChain(p, q, EnsureAttached(q));
    LaterChain(p, EnsureAttached(q), PumpPlane(EnsureAttached(q)));
  }

  lemma UserLater(p: Plane, op: Operation, requestedBytes: nat, geometry: Geometry, units: nat, data: Bytes)
    ensures Later(p, SendInput(p, op, requestedBytes)) && Later(p, ResizeTo(p, geometry)) && Later(p, WritePaste(p, units, data))
  {
    hide LaterRoute, Later, LaterLife, LaterInput;
    Stays(p);
    AdmissionLater(p.input, GateOf(p.life, p.route), op, requestedBytes, data);
    InputOnly(p, AdmitInput(p.input, op, requestedBytes));
    InputOnly(p, AdmitPaste(BeginPaste(p.input), data));
    RefusedLater(p.input, PasteRefusal(!p.life.detached, units, data), geometry);
    if !p.life.detached {
      AdmittedLater(p, AdmitInput(p.input, op, requestedBytes));
      AdmittedLater(p, p.input.(desired := Some(geometry)));
      AdmittedLater(p, AdmitPaste(BeginPaste(p.input), data));
    }
    var refusal := PasteRefusal(!p.life.detached, units, data);
    if refusal.Some? { InputOnly(p, Refuse(BeginPaste(p.input), refusal.value)); }
  }

  lemma RefusedLater(i: Input, refusal: Option<LocalRefusal>, geometry: Geometry)
    ensures refusal.Some? ==> LaterInput(i, Refuse(BeginPaste(i), refusal.value))
    ensures LaterInput(i, i.(desired := Some(geometry))) && LaterInput(i, ReleaseConsent(i))
  {
  }

  lemma ConsentLater(p: Plane, consent: Consent, now: nat)
    requires PlaneOk(p)
    ensures Later(p, Confirm(p, consent, now)) && Later(p, CancelPaste(p, consent))
  {
    hide LaterRoute, Later, LaterLife, LaterInput, PlaneOk;
    Stays(p);
    RefusedLater(p.input, None, Geometry(0, 0, 0, 0));
    InputOnly(p, ReleaseConsent(p.input));
    InputOnly(p, p.input);
    if p.input.pending.Some? {
      AdmissionLater(p.input, GateOf(p.life, p.route), Mouse, 0, []);
      InputOnly(p, AdmitConfirmed(p.input));
      if !p.life.detached { AdmittedLater(p, AdmitConfirmed(p.input)); }
    }
  }

  lemma ArriveLater(p: Plane, tag: nat, event: StreamEvent)
    ensures Later(p, Arrive(p, tag, event))
  {
    hide LaterInput;
    InputStays(p.input);
  }

  // ---------------------------------------------------------------------------
  // Frames.
  // ---------------------------------------------------------------------------

  /** Nothing but the event queues and the generation fence moved. */
  lemma RouteAside(p: Plane, route: Route)
    requires route == p.route.(queues := route.queues, routeGeneration := route.routeGeneration)
    ensures Later(p, p.(route := route))
  {
    RouteOnly(p, route);
  }

  lemma AdmitLast(segments: seq<Segment>, item: Item, h: Option<Hydration>, k: Option<Hydration>)
    requires segments != [] && h.Some?
    ensures LaterSegments(segments, h, AdmitToLast(segments, item), k)
    ensures LaterSegments(segments, h, FinishLast(segments), k)
  {
  }

  lemma ReceiveOutputLater(p: Plane, tag: nat, item: Item)
    requires PlaneOk(p) && p.life.stream.Some? && tag == p.life.generation && !p.life.detached
    ensures Later(p, ReceiveOutput(p, tag, item))
  {
    hide InputOk, QueuesOk, SerialOk, DetachOk, ReattachOk, OpeningsOk, LaterInput, LaterSegments;
    InputStays(p.input);
    var h := p.route.hydration.value;
    if !h.completed && Overflows(h, item.data) {
      RecoverRouteLater(p, h.id);
    } else {
      AdmitLast(p.route.segments, item, p.route.hydration, ReceiveOutput(p, tag, item).route.hydration);
    }
  }

  lemma CompleteHydrationLater(p: Plane)
    requires p.route.hydration.Some? && p.route.segments != []
    ensures Later(p, CompleteHydration(p))
  {
    hide LaterInput, LaterSegments;
    var h := p.route.hydration.value;
    var route := p.route.(
      hydration := Some(h.(completed := true, armed := false, buffered := [], bufferedBytes := 0)),
      delivered := p.route.delivered + h.buffered,
      segments := FinishLast(p.route.segments),
      exits := if h.pendingExit.Some? then p.route.exits + [h.pendingExit.value] else p.route.exits);
    AdmitLast(p.route.segments, Item(0, []), p.route.hydration, route.hydration);
    RouteOnly(p, route);
    PumpPlaneLater(p.(route := route));
    LaterChain(p, p.(route := route), CompleteHydration(p));
  }

  lemma SameSegments(segments: seq<Segment>, h: Option<Hydration>, k: Option<Hydration>)
    requires h.None? ==> k.None?
    ensures LaterSegments(segments, h, segments, k)
  {
  }

  lemma ReceiveFinishLater(p: Plane, tag: nat)
    requires PlaneOk(p) && p.life.stream.Some? && tag == p.life.generation
    ensures Later(p, ReceiveFinish(p, tag))
  {
    hide InputOk, QueuesOk, SerialOk, DetachOk, ReattachOk, OpeningsOk, LaterInput, LaterSegments;
    HydrationIsThere(p);
    Stays(p);
    var h := p.route.hydration.value;
    if !h.completed {
      CloseStreamLater(p);
      var route := p.route.(hydration := Some(h.(historyIncomplete := h.historyIncomplete || !h.decoderFinished)));
      SameSegments(p.route.segments, p.route.hydration, route.hydration);
      RouteOnly(p, route);
      CompleteHydrationLater(p.(route := route));
      LaterChain(p, p.(route := route), CompleteHydration(p.(route := route)));
    }
  }

  lemma ReceiveHistoryUnavailableLater(p: Plane, tag: nat)
    requires PlaneOk(p) && p.life.stream.Some? && tag == p.life.generation
    ensures Later(p, ReceiveHistoryUnavailable(p, tag))
  {
    hide InputOk, QueuesOk, SerialOk, OutputOk, DetachOk, ReattachOk, OpeningsOk, LaterInput, LaterSegments;
    HydrationIsThere(p);
    CloseStreamLater(p);
    var route := ReceiveHistoryUnavailable(p, tag).route;
    SameSegments(p.route.segments, p.route.hydration, route.hydration);
    if p.route.hydration.value.readyReceived { RouteOnly(p, route); }
  }

  lemma SegmentAdded(segments: seq<Segment>, segment: Segment, h: Option<Hydration>, k: Option<Hydration>)
    ensures LaterSegments(segments, h, segments + [segment], k)
  {
  }

  lemma ReceiveResyncLater(p: Plane, tag: nat, toEpoch: nat)
    ensures Later(p, ReceiveResync(p, tag, toEpoch))
  {
    hide LaterInput, LaterSegments;
    RefusedLater(p.input, None, Geometry(0, 0, 0, 0));
    SegmentAdded(p.route.segments, Segment(tag, [], false), p.route.hydration, ReceiveResync(p, tag, toEpoch).route.hydration);
  }

  lemma ReceiveAttachStateLater(p: Plane, tag: nat, state: AttachState)
    requires PlaneOk(p) && !p.life.detached
    ensures Later(p, ReceiveAttachState(p, tag, state))
  {
    hide PlaneOk, LaterInput, LaterSegments, Later;
    Stays(p);
    CloseStreamLater(p);
    if p.route.hydration.Some? { RecoverRouteLater(p, p.route.hydration.value.id); }
    var route := p.route.(attached := true, acceptedEpoch := Some(0));
    SameSegments(p.route.segments, p.route.hydration, route.hydration);
    RouteOnly(p, route);
    PumpPlaneLater(p.(route := route));
    LaterChain(p, p.(route := route), PumpPlane(p.(route := route)));
  }

  lemma ReceiveExitLater(p: Plane, tag: nat, code: int)
    ensures Later(p, ReceiveExit(p, tag, code))
  {
    hide LaterInput, LaterSegments;
    SameSegments(p.route.segments, p.route.hydration, ReceiveExit(p, tag, code).route.hydration);
    RouteOnly(p, ReceiveExit(p, tag, code).route);
  }

  lemma BeginInstallLater(p: Plane, q: nat, tag: nat, ready: bool)
    requires PlaneOk(p) && p.life.stream.Some? && tag == p.life.generation
    ensures Later(p, BeginInstall(p, q, tag, ready))
  {
    hide InputOk, QueuesOk, SerialOk, OutputOk, DetachOk, ReattachOk, OpeningsOk, LaterInput;
    HydrationIsThere(p);
    RouteAside(p, BeginInstall(p, q, tag, ready).route);
  }

  lemma InputResultLater(p: Plane, id: nat, name: OutcomeName, accepted: Option<nat>, written: Option<nat>, now: nat)
    ensures Later(p, p.(input := SettleResult(p.input, GateOf(p.life, p.route), id, name, accepted, written, now)))
  {
    hide LaterInput, Later;
    SettleResultLater(p.input, GateOf(p.life, p.route), id, name, accepted, written, now);
    InputOnly(p, SettleResult(p.input, GateOf(p.life, p.route), id, name, accepted, written, now));
  }

  lemma HandleBodyLater(p: Plane, q: nat, serial: nat, tag: nat, body: Body, now: nat)
    requires PlaneOk(p) && p.life.stream.Some? && !p.life.detached && tag == p.life.generation
    ensures Later(p, HandleBody(p, q, serial, tag, body, now))
  {
    hide PlaneOk, Later;
    Stays(p);
    match body {
      case Undecodable =>
      case Output(payload) => ReceiveOutputLater(p, tag, Item(serial, payload));
      case SnapshotReady(_) => BeginInstallLater(p, q, tag, true);
      case SnapshotHistory(_) => BeginInstallLater(p, q, tag, false);
      case SnapshotFinish => ReceiveFinishLater(p, tag);
      case ProcessExit(code) => ReceiveExitLater(p, tag, code);
      case Modes =>
      case AttachStateFrame(state) => ReceiveAttachStateLater(p, tag, state);
      case InputResult(id, name, accepted, written) => InputResultLater(p, id, name, accepted, written, now);
      case HistoryUnavailable => ReceiveHistoryUnavailableLater(p, tag);
      case RouteResync(_, to) => ReceiveResyncLater(p, tag, to);
    }
  }

  lemma FenceMoved(p: Plane, generation: nat)
    requires PlaneOk(p)
    ensures PlaneOk(p.(route := p.route.(routeGeneration := Some(generation))))
  {
    hide InputOk, QueuesOk, SerialOk, OutputOk, DetachOk, ReattachOk, OpeningsOk;
    RouteChangeOk(p, p.route.(routeGeneration := Some(generation)));
  }

  lemma ReceiveFrameLater(p: Plane, q: nat, serial: nat, tag: nat, frame: StreamEvent, now: nat)
    requires PlaneOk(p) && p.life.stream.Some? && !p.life.detached && tag == p.life.generation && frame.Frame?
    ensures Later(p, ReceiveFrame(p, q, serial, tag, frame, now))
  {
    hide PlaneOk, Later;
    Stays(p);
    CloseStreamLater(p);
    var fenced := p.(route := p.route.(routeGeneration := Some(frame.generation)));
    FenceMoved(p, frame.generation);
    RouteAside(p, fenced.route);
    HandleBodyLater(fenced, q, serial, tag, frame.body, now);
    LaterChain(p, fenced, HandleBody(fenced, q, serial, tag, frame.body, now));
  }

  lemma HandleArrivalLater(p: Plane, q: nat, a: Arrival, now: nat)
    requires PlaneOk(p) && (a.tag == p.life.generation ==> p.life.stream.Some?)
    ensures Later(p, HandleArrival(p, q, a, now))
  {
    hide PlaneOk, Later;
    Stays(p);
    if IsCurrent(p.life, a.tag) {
      CloseStreamLater(p);
      ResetLater(p);
      if a.event.Frame? { ReceiveFrameLater(p, q, a.serial, a.tag, a.event, now); }
    }
  }

  lemma DispatchLater(p: Plane, q: nat, now: nat)
    requires PlaneOk(p)
    ensures Later(p, Dispatch(p, q, now))
  {
    hide PlaneOk, Later, Admitted;
    Stays(p);
    var queue := p.route.Queue(q);
    assert queue == QueueOf(p.route.queues, q);
    if queue.install.None? && queue.items != [] {
      DispatchHead(p, q);
      var popped := p.(route := SetQueue(p.route, q, queue.(items := queue.items[1..])));
      RouteAside(p, popped.route);
      HandleArrivalLater(popped, q, queue.items[0], now);
      LaterChain(p, popped, HandleArrival(popped, q, queue.items[0], now));
    }
  }

  lemma CloseAside(p: Plane, route: Route)
    requires PlaneOk(p.(route := route)) && route == p.route.(queues := route.queues)
    ensures Later(p, p.(route := route)) && Later(p, CloseStream(p.(route := route)))
  {
    hide PlaneOk, Later;
    RouteAside(p, route);
    CloseStreamLater(p.(route := route));
    LaterChain(p, p.(route := route), CloseStream(p.(route := route)));
  }

  lemma StartInstallLater(p: Plane, q: nat)
    requires PlaneOk(p)
    ensures Later(p, StartInstall(p, q))
  {
    hide PlaneOk, Later;
    Stays(p);
    var queue := p.route.Queue(q);
    if queue.install.Some? && !queue.install.value.reading {
      EndInstallOk(p, q);
      CloseAside(p, EndInstall(p, q).route);
      RouteAside(p, SetQueue(p.route, q, queue.(install := Some(queue.install.value.(reading := true)))));
    }
  }

  lemma HydrationMoves(p: Plane, route: Route)
    requires p.route.hydration.Some? && route == p.route.(queues := route.queues, hydration := route.hydration)
    ensures Later(p, p.(route := route)) && Later(p, p.(route := Arm(route)))
  {
    RouteOnly(p, route);
    RouteOnly(p, Arm(route));
  }

  lemma ReaderDoneLater(p: Plane, q: nat, progress: Progress)
    requires PlaneOk(p)
    ensures Later(p, ReaderDone(p, q, progress))
  {
    hide PlaneOk, Later;
    Stays(p);
    var queue := p.route.Queue(q);
    if queue.install.Some? && queue.install.value.reading {
      var ended := EndInstall(p, q);
      EndInstallOk(p, q);
      CloseAside(p, ended.route);
      if InstallCurrent(p, queue.install.value) {
        var h := p.route.hydration.value;
        HydrationMoves(p, ended.route);
        HydrationMoves(p, ended.route.(hydration := Some(h.(readyReceived := true))));
        HydrationMoves(p, ended.route.(hydration := Some(h.(decoderFinished := true))));
      }
    }
  }

  lemma ReaderFailedLater(p: Plane, q: nat)
    requires PlaneOk(p)
    ensures Later(p, ReaderFailed(p, q))
  {
    hide PlaneOk, Later;
    Stays(p);
    var queue := p.route.Queue(q);
    if queue.install.Some? && queue.install.value.reading {
      var ended := EndInstall(p, q);
      EndInstallOk(p, q);
      RouteAside(p, ended.route);
      if InstallCurrent(p, queue.install.value) {
        RecoverRouteLater(ended, queue.install.value.hydration);
        LaterChain(p, ended, RecoverRoute(ended, queue.install.value.hydration));
      }
    }
  }

  lemma HydrationTimeoutLater(p: Plane, hydration: nat)
    requires PlaneOk(p)
    ensures Later(p, HydrationTimeout(p, hydration))
  {
    hide InputOk, QueuesOk, SerialOk, DetachOk, ReattachOk, OpeningsOk, Later;
    Stays(p);
    if HydrationTimeout(p, hydration) != p {
      var route := p.route.(hydration := Some(p.route.hydration.value.(armed := false)));
      RouteChangeOk(p, route);
      HydrationMoves(p, route);
      RecoverRouteLater(p.(route := route), hydration);
      LaterChain(p, p.(route := route), HydrationTimeout(p, hydration));
    }
  }

  lemma ChainLater(p: Plane, g: nat)
    ensures var gate := GateOf(p.life, p.route);
      && Later(p, p.(input := ChainRun(p.input, gate, g)))
      && Later(p, p.(input := TerminalInput.SendDone(p.input, g)))
      && Later(p, p.(input := TerminalInput.SendFail(p.input, gate, g)))
      && Later(p, p.(input := AbortDone(p.input, g)))
      && Later(p, p.(input := ChainCatch(p.input, gate, g)))
  {
    hide LaterInput, Later;
    var gate := GateOf(p.life, p.route);
    ChainRunLater(p.input, gate, g);
    SendLater(p.input, gate, g);
    ChainCatchLater(p.input, gate, g);
    InputOnly(p, ChainRun(p.input, gate, g));
    InputOnly(p, TerminalInput.SendDone(p.input, g));
    InputOnly(p, TerminalInput.SendFail(p.input, gate, g));
    InputOnly(p, AbortDone(p.input, g));
    InputOnly(p, ChainCatch(p.input, gate, g));
  }

  // ---------------------------------------------------------------------------
  // Every event, every continuation of a run.
  // ---------------------------------------------------------------------------

  lemma StepLaterOnUser(p: Plane, e: Event)
    requires PlaneOk(p)
    requires e.User()
    ensures Later(p, OnUser(p, e))
  {
    hide PlaneOk, Later, Subscribe, Unsubscribe, SendInput, ResizeTo, WritePaste, Confirm, CancelPaste;
    match e {
      case EvSubscribe(l) => ListenersLater(p, l);
      case EvUnsubscribe(l) => ListenersLater(p, l);
      case EvBindReader => BindReaderLater(p);
      case EvSendInput(op, n) => UserLater(p, op, n, Geometry(0, 0, 0, 0), 0, []);
      case EvResize(geometry) => UserLater(p, Mouse, 0, geometry, 0, []);
      case EvPaste(units, data) => UserLater(p, Mouse, 0, Geometry(0, 0, 0, 0), units, data);
      case EvConfirm(consent, now) => ConsentLater(p, consent, now);
      case EvCancel(consent) => ConsentLater(p, consent, 0);
      case EvConsentExpires(consent) => ConsentLater(p, consent, 0);
    }
  }

  lemma StepLaterOnChain(p: Plane, e: Event)
    requires PlaneOk(p)
    requires e.Chain()
    ensures Later(p, OnChain(p, e))
  {
    hide PlaneOk, Later, ChainRun, TerminalInput.SendDone, TerminalInput.SendFail, AbortDone, ChainCatch;
    match e {
      case EvChainRun(g) => ChainLater(p, g);
      case EvSendDone(g) => ChainLater(p, g);
      case EvSendFail(g) => ChainLater(p, g);
      case EvAbortDone(g) => ChainLater(p, g);
      case EvChainCatch(g) => ChainLater(p, g);
    }
  }

  lemma StepLaterOnDelivery(p: Plane, e: Event)
    requires PlaneOk(p)
    requires e.Delivery()
    ensures Later(p, OnDelivery(p, e))
  {
    hide PlaneOk, Later, Arrive, Dispatch, StartInstall, ReaderDone, ReaderFailed, HydrationTimeout;
    match e {
      case EvArrive(tag, event) => ArriveLater(p, tag, event);
      case EvDispatch(q, now) => DispatchLater(p, q, now);
      case EvStartInstall(q) => StartInstallLater(p, q);
      case EvReaderDone(q, progress) => ReaderDoneLater(p, q, progress);
      case EvReaderFailed(q) => ReaderFailedLater(p, q);
      case EvHydrationTimeout(h) => HydrationTimeoutLater(p, h);
    }
  }

  lemma StepLaterOnLifecycle(p: Plane, e: Event)
    requires PlaneOk(p)
    requires !e.User() && !e.Chain() && !e.Delivery()
    ensures Later(p, OnLifecycle(p, e))
  {
    hide PlaneOk, Later, AttachResume, MarkAttachSent, AttachReady, AttachRejected, AttachCleared, TransportLost,
         TransportRecovered, RecoveryContinues, DetachPlane;
    match e {
      case EvAttachResume(g) => AttachResumeLater(p, g);
      case EvAttachSent(g) => AttachProgressLater(p, g, None);
      case EvAttachReady(g, reserved) => AttachProgressLater(p, g, reserved);
      case EvAttachRejected(g) => AttachProgressLater(p, g, None);
      case EvAttachCleared(g) => AttachProgressLater(p, g, None);
      case EvTransportLost => TransportLostLater(p);
      case EvRouteChannelClosed(_) => TransportLostLater(p); Stays(p);
      case EvTransportRecovered => TransportRecoveredLater(p);
      case EvRecoveryContinues => RecoveryContinuesLater(p);
      case EvDetach => DetachPlaneLater(p);
    }
  }

  lemma StepLater(p: Plane, e: Event)
    requires PlaneOk(p)
    ensures Later(p, Step(p, e))
  {
    hide PlaneOk, Later, OnUser, OnChain, OnDelivery, OnLifecycle;
    if e.User() {
      StepLaterOnUser(p, e);
    } else if e.Chain() {
      StepLaterOnChain(p, e);
    } else if e.Delivery() {
      StepLaterOnDelivery(p, e);
    } else {
      StepLaterOnLifecycle(p, e);
    }
  }

  lemma BindReaderLater(p: Plane)
    ensures Later(p, p.(route := p.route.(readerBound := true)))
  {
    RouteOnly(p, p.route.(readerBound := true));
  }

  /** Running on from a reachable state undoes nothing of it. */
  lemma {:induction false} RunLater(p: Plane, more: seq<Event>)
    requires PlaneOk(p)
    ensures PlaneOk(Run(p, more)) && Later(p, Run(p, more))
    decreases |more|
  {
    hide PlaneOk, Later;
    if more == [] {
      Stays(p);
    } else {
      var q := Run(p, more[..|more| - 1]);
      RunLater(p, more[..|more| - 1]);
      StepOk(q, more[|more| - 1]);
      StepLater(q, more[|more| - 1]);
      LaterChain(p, q, Run(p, more));
    }
  }

  // ---------------------------------------------------------------------------
  // Runs compose.
  // ---------------------------------------------------------------------------

  lemma {:induction false} RunAppend(p: Plane, a: seq<Event>, b: seq<Event>)
    ensures Run(p, a + b) == Run(Run(p, a), b)
    decreases |b|
  {
    hide Step;
    if b == [] {
      assert a + b == a;
    } else {
      RunAppend(p, a, b[..|b| - 1]);
      assert (a + b)[..|a + b| - 1] == a + b[..|b| - 1];
    }
  }

  lemma RunTwo(p: Plane, e: Event, f: Event)
    ensures Run(p, [e, f]) == Step(Step(p, e), f)
  {
    hide Step;
    RunAppend(p, [e], [f]);
    RunOne(p, e);
    RunOne(Step(p, e), f);
    assert [e] + [f] == [e, f];
  }

  lemma RunOne(p: Plane, e: Event)
    ensures Run(p, [e]) == Step(p, e)
  {
    hide Step;
    assert [e][..0] == [];
  }

  lemma RunThree(p: Plane, e: Event, f: Event, g: Event)
    ensures Run(p, [e, f, g]) == Step(Step(Step(p, e), f), g)
  {
    hide Step;
    RunAppend(p, [e, f], [g]);
    RunTwo(p, e, f);
    RunOne(Step(Step(p, e), f), g);
    assert [e, f] + [g] == [e, f, g];
  }
}
