/** What each event does to the input side: the consent that is pending, the operations waiting and in flight, and
    what is refused; and over every run, that a withdrawn consent confirms nothing. */
module TerminalInputEffects {
  import opened Wrappers
  import opened TerminalInput
  import opened TerminalInputProofs
  import opened TerminalPlane
  import opened TerminalPlaneProofs
  import opened TerminalHistory
  import opened TerminalOutputTheorems
  import opened TerminalSettlementTheorems
  import opened TerminalWireTheorems
  import opened TerminalEffects
  import opened TerminalGeometryTheorems

  // ---------------------------------------------------------------------------
  // An event outside the send chain, as an operation on the input.
  // ---------------------------------------------------------------------------

  /** The same input, but that ids may start over. */
  predicate Renumbered(i: Input, j: Input) { j == i.(nextOperationId := j.nextOperationId) }

  lemma ResetInput(p: Plane)
    ensures Reset(p).input == Abandon(p.input, p.life.generation) && CloseStream(p).input == Abandon(p.input, p.life.generation)
    ensures Renumbered(p.input, EnsureAttached(p).input)
  {
    hide Abandon;
  }

  lemma RecoverInput(p: Plane, hydration: nat)
    requires p.route.hydration.Some? && p.route.hydration.value.id == hydration
    ensures RecoverRoute(p, hydration).input == Abandon(p.input, p.life.generation)
  {
    hide CloseStream;
    ResetInput(p);
    var life := p.life.(snapshotRecoveries := p.life.snapshotRecoveries + 1, reattaches := p.life.reattaches + [p.life.recoveryEpoch]);
    ResetInput(p.(life := life));
    AbandonIds(p.input, p.life.generation);
  }

  lemma AbandonIds(i: Input, g: nat)
    ensures Abandon(i, g).(nextOperationId := 1) == Abandon(i, g)
  {
  }

  lemma UserInput(p: Plane, e: Event)
    requires PlaneOk(p) && e.User() && !Calling(e)
    ensures if Resets(p, e) then OnUser(p, e).input == Abandon(p.input, p.life.generation) else Renumbered(p.input, OnUser(p, e).input)
  {
    hide PlaneOk, CloseStream, Abandon;
    if e.EvUnsubscribe? { ResetInput(p.(life := p.life.(listeners := p.life.listeners - {e.listener}))); }
  }

  lemma LifecycleInput(p: Plane, e: Event)
    requires PlaneOk(p) && !e.User() && !e.Chain() && !e.Delivery()
    ensures if Resets(p, e) then OnLifecycle(p, e).input == Abandon(p.input, p.life.generation)
            else Renumbered(p.input, OnLifecycle(p, e).input)
  {
    hide PlaneOk, Abandon, SendDetachOnce, EnsureHydration;
  }

  lemma ReadingInput(p: Plane, e: Event)
    requires PlaneOk(p) && (Reading(e) || e.EvArrive? || e.EvHydrationTimeout?)
    ensures if Resets(p, e) then OnDelivery(p, e).input == Abandon(p.input, p.life.generation) else OnDelivery(p, e).input == p.input
  {
    hide PlaneOk, CloseStream, RecoverRoute, Abandon, OnDelivery, Resets, LosesSnapshot, FailsRoute;
    if Reading(e) {
      ReadingParts(p, e);
      ResetInput(EndInstall(p, e.queue));
      if LosesSnapshot(p, e) {
        RecoverInput(EndInstall(p, e.queue), p.route.hydration.value.id);
      } else if FailsRoute(p, e) {
        InstallFails(p, e);
      } else {
        InstallStays(p, e);
      }
    } else {
      TimeoutInput(p, e);
    }
  }

  lemma TimeoutInput(p: Plane, e: Event)
    requires e.EvArrive? || e.EvHydrationTimeout?
    ensures if Resets(p, e) then OnDelivery(p, e).input == Abandon(p.input, p.life.generation) else OnDelivery(p, e).input == p.input
  {
    hide RecoverRoute, Abandon;
    if e.EvHydrationTimeout? && LosesSnapshot(p, e) {
      RecoverInput(p.(route := p.route.(hydration := Some(p.route.hydration.value.(armed := false)))), e.hydration);
    }
  }

  /** The input after a frame that passed both fences and does not reset the attachment. */
  function HandledInput(p: Plane, body: Body, gate: Gate, now: nat): Input {
    match body
    case InputResult(id, name, accepted, written) =>
      SettleResult(p.input, GateOf(p.life, p.route), id, name, accepted, written, now)
    case RouteResync(_, _) => ReleaseConsent(p.input)
    case AttachStateFrame(state) => if state == Attached then Pump(p.input, gate) else p.input
    case SnapshotFinish => if LiveScreen(p) then p.input else Pump(p.input, gate)
    case _ => p.input
  }

  lemma BodyInput(p: Plane, e: Event, serial: nat)
    requires PlaneOk(p) && p.life.stream.Some? && Handled(p, e).Some?
    ensures var q := HandleBody(Past(p, e), e.queue, serial, p.life.generation, Handled(p, e).value, e.now);
      q.input == if Resets(p, e) then Abandon(p.input, p.life.generation)
                 else HandledInput(p, Handled(p, e).value, GateOf(q.life, q.route), e.now)
  {
    hide PlaneOk, CloseStream, RecoverRoute, Abandon, Pump, SettleResult, EpochPasses, Overflows, Overflowing, AdmitToLast, FinishLast;
    HydrationIsThere(p);
    var past, body := Past(p, e), Handled(p, e).value;
    ResetInput(past);
    RecoverInput(past, past.route.hydration.value.id);
    if body.Output? && !LiveScreen(p) { CounterDecides(p, body.payload); }
    if LiveScreen(p) { LiveNeverOverflows(p); }
  }

  lemma DispatchInput(p: Plane, e: Event)
    requires PlaneOk(p) && e.EvDispatch?
    ensures Step(p, e).input ==
      if Resets(p, e) then Abandon(p.input, p.life.generation)
      else if Handled(p, e).Some? then HandledInput(p, Handled(p, e).value, GateOf(Step(p, e).life, Step(p, e).route), e.now)
      else p.input
  {
    hide PlaneOk, HandleBody, Reset, CloseStream, Abandon, HandledInput, EpochPasses, BodyLoses, BodyFails;
    DispatchParts(p, e);
    if Handled(p, e).Some? {
      BodyInput(p, e, p.route.Queue(e.queue).items[0].serial);
    } else if Dispatches(p, e.queue) {
      ResetInput(Popped(p, e.queue));
    }
  }

  /** The input a frame leaves, if event e handles one. */
  function FrameInput(p: Plane, e: Event): Option<Input> {
    if e.EvDispatch? && Handled(p, e).Some? && !Resets(p, e)
    then Some(HandledInput(p, Handled(p, e).value, GateOf(Step(p, e).life, Step(p, e).route), e.now)) else None
  }

  /** Every event that is neither a call nor of the send chain: a reset abandons the input, a frame may act on it,
      anything else leaves it alone. */
  lemma InputParts(p: Plane, e: Event)
    requires PlaneOk(p) && !e.Chain() && !Calling(e)
    ensures Resets(p, e) ==> Step(p, e).input == Abandon(p.input, p.life.generation)
    ensures !Resets(p, e) && FrameInput(p, e).Some? ==> Step(p, e).input == FrameInput(p, e).value
    ensures !Resets(p, e) && FrameInput(p, e).None? ==> Renumbered(p.input, Step(p, e).input)
  {
    hide PlaneOk, OnUser, OnLifecycle, OnDelivery, Abandon, HandledInput, Handled, Resets;
    if e.User() {
      UserInput(p, e);
    } else if e.EvDispatch? {
      hide Step;
      DispatchInput(p, e);
    } else if e.Delivery() {
      ReadingInput(p, e);
    } else {
      LifecycleInput(p, e);
    }
  }

  // ---------------------------------------------------------------------------
  // The consent.
  // ---------------------------------------------------------------------------

  /** The consent pending after event e: withdrawn by a reset, by any paste attempt, by its own confirmation,
      cancellation or expiry, and by a resync; granted by a refusal; otherwise untouched. */
  function PendingAfter(p: Plane, e: Event): Option<PendingPaste> {
    var pending := p.input.pending;
    if Resets(p, e) then None
    else match e
      case EvPaste(_, _) => None
      case EvConfirm(consent, _) => if pending.Some? && pending.value.consent == consent then None else pending
      case EvCancel(consent) => if pending.Some? && pending.value.consent == consent then None else pending
      case EvConsentExpires(consent) => if pending.Some? && pending.value.consent == consent then None else pending
      case EvDispatch(_, now) =>
        if Handled(p, e).None? then pending
        else if Handled(p, e).value.InputResult? then PendingAfterResult(p, Handled(p, e).value, now)
        else if Handled(p, e).value.RouteResync? then None
        else pending
      case _ => pending
  }

  lemma CallPending(p: Plane, e: Event)
    requires Calling(e)
    ensures Step(p, e).input.pending == PendingAfter(p, e)
  {
    hide EnsureAttached, Pump, Calls, QueuedBytes, InflightBytes;
    CallParts(p, e);
    var q := CalledWith(p, e);
    ResetInput(q);
    PumpKeepsLogs(EnsureAttached(q).input, GateOf(EnsureAttached(q).life, EnsureAttached(q).route));
  }

  /** What a link that moves leaves alone. */
  predicate SameFields(i: Input, j: Input) {
    j.confirmed == i.confirmed && j.refusals == i.refusals && j.pasteAttempt == i.pasteAttempt && j.desired == i.desired
  }

  lemma SettleFields(i: Input, gate: Gate, item: Inflight)
    ensures var j := Settle(i, gate, item, Cancelled, None, None, 0); SameFields(i, j) && j.pending == i.pending
    ensures var j := Pump(Release(i, item), gate); SameFields(i, j) && j.pending == i.pending
  {
    hide Pump;
    PumpKeepsLogs(Release(i, item), gate);
    if Holds(i, item) { PumpKeepsLogs(Record(i, gate, item, Cancelled, None, None, 0), gate); }
  }

  lemma ChainLeaves(i: Input, gate: Gate, e: Event)
    requires e.Chain()
    ensures SameFields(i, ChainInput(i, gate, e)) && ChainInput(i, gate, e).pending == i.pending
  {
    hide Settle, Pump, Release;
    if i.Chain(e.generation) != [] { SettleFields(PopHead(i, e.generation), gate, i.Chain(e.generation)[0].item); }
  }

  lemma ChainPending(p: Plane, e: Event)
    requires e.Chain()
    ensures Step(p, e).input.pending == p.input.pending && SameFields(p.input, Step(p, e).input)
  {
    hide Step, ChainInput;
    ChainStep(p, e);
    ChainLeaves(p.input, GateOf(p.life, p.route), e);
  }

  lemma FramePending(p: Plane, e: Event)
    requires PlaneOk(p) && FrameInput(p, e).Some?
    ensures FrameInput(p, e).value.pending == PendingAfter(p, e)
  {
    hide PlaneOk, Step, Pump, EpochPasses, Resets;
    PumpKeepsLogs(p.input, GateOf(Step(p, e).life, Step(p, e).route));
    if Handled(p, e).value.InputResult? {
      GrantIs(p, e);
    }
  }

  lemma GrantIs(p: Plane, e: Event)
    requires PlaneOk(p) && Handled(p, e).Some? && Handled(p, e).value.InputResult?
    ensures var body := Handled(p, e).value;
      SettleResult(p.input, GateOf(p.life, p.route), body.operationId, body.name, body.accepted, body.written, e.now).pending
      == PendingAfterResult(p, body, e.now)
  {
    hide PlaneOk, InputOk, SettleResult;
    GateAligned(p);
    ResultGrants(p, GateOf(p.life, p.route), Handled(p, e).value, e.now);
  }

  /** The pending consent after every event of every reachable state. */
  lemma PendingExact(p: Plane, e: Event)
    requires PlaneOk(p)
    ensures Step(p, e).input.pending == PendingAfter(p, e)
  {
    hide PlaneOk, Step, Resets, Handled, HandledInput;
    if Calling(e) {
      CallPending(p, e);
      CallNeverResets(p, e);
    } else if e.Chain() {
      ChainPending(p, e);
      ChainNeverResets(p, e);
    } else {
      InputParts(p, e);
      if Resets(p, e) {
        AbandonedPending(p.input, p.life.generation);
      } else if FrameInput(p, e).Some? {
        FramePending(p, e);
      }
    }
  }

  lemma CallNeverResets(p: Plane, e: Event)
    requires Calling(e)
    ensures !Resets(p, e)
  {
  }

  lemma ChainNeverResets(p: Plane, e: Event)
    requires e.Chain()
    ensures !Resets(p, e)
  {
  }

  lemma AbandonedPending(i: Input, g: nat)
    ensures Abandon(i, g).pending.None? && Abandon(i, g).inflight == [] && Abandon(i, g).queued == []
  {
  }

  // ---------------------------------------------------------------------------
  // Confirmations, refusals, the paste attempt and the wanted geometry.
  // ---------------------------------------------------------------------------

  /** A confirmation that is admitted names the refusal its consent answered. */
  function ConfirmedBy(p: Plane, e: Event): seq<Confirmation> {
    if e.EvConfirm? && Calls(p, e) then [Confirmation(p.input.nextTicket, p.input.pending.value.rejection)] else []
  }

  /** The consent is the pending one, of the present attachment, and has not expired. */
  predicate Usable(p: Plane, consent: Consent, now: nat) {
    && p.input.pending.Some? && p.input.pending.value.consent == consent
    && !p.life.detached && consent.generation == p.life.generation && now < consent.expiresAt
  }

  /** A paste is refused as empty, as written while detached, as too large, and only then for want of room. */
  function RefusedBy(p: Plane, e: Event): seq<LocalRefusal> {
    if Calls(p, e) then [] else
      match e
      case EvSendInput(op, _) => if p.life.detached || op.Paste? || op.Resize? then [] else [QueueBounds]
      case EvPaste(units, data) =>
        if units == 0 then [EmptyPaste]
        else if p.life.detached then [PasteWhileDetached]
        else if units > 1048576 || |data| > 1048576 then [PasteTooLarge]
        else [QueueBounds]
      case EvConfirm(consent, now) => if Usable(p, consent, now) then [QueueBounds] else []
      case _ => []
  }

  predicate FieldsAre(p: Plane, e: Event, j: Input) {
    && j.confirmed == p.input.confirmed + ConfirmedBy(p, e)
    && j.refusals == p.input.refusals + RefusedBy(p, e)
    && j.pasteAttempt == p.input.pasteAttempt + (if e.EvPaste? then 1 else 0)
    && j.desired == (if e.EvResize? && !p.life.detached then Some(e.geometry) else p.input.desired)
  }

  lemma CallFields(p: Plane, e: Event)
    requires Calling(e)
    ensures FieldsAre(p, e, Step(p, e).input)
  {
    hide EnsureAttached, Pump, FieldsAre, Calls, OnUser, CalledWith;
    CallParts(p, e);
    if Calls(p, e) {
      var q := CalledWith(p, e);
      ResetInput(q);
      PumpKeepsLogs(EnsureAttached(q).input, GateOf(EnsureAttached(q).life, EnsureAttached(q).route));
      AdmittedFields(p, e, PumpPlane(EnsureAttached(q)).input);
    } else {
      RefusedFields(p, e);
    }
  }

  lemma AdmittedFields(p: Plane, e: Event, j: Input)
    requires Calling(e) && Calls(p, e) && SameFields(CalledWith(p, e).input, j)
    ensures FieldsAre(p, e, j)
  {
    hide QueuedBytes, InflightBytes;
  }

  lemma RefusedFields(p: Plane, e: Event)
    requires Calling(e) && !Calls(p, e)
    ensures FieldsAre(p, e, OnUser(p, e).input)
  {
    hide QueuedBytes, InflightBytes, EnsureAttached, PumpPlane;
  }

  lemma FrameFields(p: Plane, e: Event)
    requires FrameInput(p, e).Some?
    ensures SameFields(p.input, FrameInput(p, e).value)
  {
    hide PlaneOk, Step, Pump, EpochPasses, Resets;
    PumpKeepsLogs(p.input, GateOf(Step(p, e).life, Step(p, e).route));
    var body := Handled(p, e).value;
    if body.InputResult? {
      var gate := GateOf(p.life, p.route);
      var k := IndexOf(p.input.inflight, body.operationId);
      if k < |p.input.inflight| && Holds(p.input, p.input.inflight[k]) {
        PumpKeepsLogs(Record(p.input, gate, p.input.inflight[k], body.name, body.accepted, body.written, e.now), gate);
      }
    }
  }

  lemma FieldsKept(p: Plane, e: Event, j: Input)
    requires !Calling(e) && SameFields(p.input, j)
    ensures FieldsAre(p, e, j)
  {
  }

  /** What is confirmed, refused and wanted, for every event of every reachable state. */
  lemma FieldsExact(p: Plane, e: Event)
    requires PlaneOk(p)
    ensures FieldsAre(p, e, Step(p, e).input)
  {
    hide PlaneOk, Step, Resets, Handled, HandledInput, FieldsAre, FrameInput;
    if Calling(e) {
      CallFields(p, e);
    } else {
      if e.Chain() {
        ChainPending(p, e);
      } else {
        InputParts(p, e);
        if FrameInput(p, e).Some? { FrameFields(p, e); }
      }
      FieldsKept(p, e, Step(p, e).input);
    }
  }

  /** Cancelling or letting a consent expire withdraws that one and no other; a resync withdraws any. */
  lemma WithdrawnExactly(p: Plane, consent: Consent)
    ensures forall e :: e == EvCancel(consent) || e == EvConsentExpires(consent) ==>
      Step(p, e).input.pending == (if p.input.pending.Some? && p.input.pending.value.consent == consent then None else p.input.pending)
  {
  }

  /** Once a consent is cancelled or has expired, the refusal it answered lets nothing through, however the run
      goes on; and once a resync passed, no refusal made before it does. */
  lemma CancelledNeverConfirms(fixedSubscription: bool, events: seq<Event>, e: Event, more: seq<Event>, k: nat)
    requires var p := Run(Initial(fixedSubscription), events);
      && p.input.pending.Some?
      && (e == EvCancel(p.input.pending.value.consent) || e == EvConsentExpires(p.input.pending.value.consent)
          || (Handled(p, e).Some? && Handled(p, e).value.RouteResync?))
      && k < |Run(Run(Initial(fixedSubscription), events + [e]), more).input.confirmed|
    ensures Run(Run(Initial(fixedSubscription), events + [e]), more).input.confirmed[k].rejection
      != Run(Initial(fixedSubscription), events).input.pending.value.rejection
  {
    hide PlaneOk, Step, Resets, Handled, RefusedBytes;
    var p := Run(Initial(fixedSubscription), events);
    var q := Run(Initial(fixedSubscription), events + [e]);
    assert (events + [e])[..|events|] == events;
    assert q == Step(p, e);
    RunOk(fixedSubscription, events);
    RunOk(fixedSubscription, events + [e]);
    ConsentIsCurrent(fixedSubscription, events);
    RejectionLogged(fixedSubscription, events);
    PendingExact(p, e);
    FieldsExact(p, e);
    Withdraws(p, e);
    WithdrawalStepLogs(p, e);
    RunLater(q, more);
    if k < |q.input.confirmed| {
      assert Run(q, more).input.confirmed[k] == q.input.confirmed[k];
    } else {
      WithdrawnConsentIsDead(fixedSubscription, events + [e], more, k);
    }
  }

  lemma Withdraws(p: Plane, e: Event)
    requires p.input.pending.Some?
    requires e == EvCancel(p.input.pending.value.consent) || e == EvConsentExpires(p.input.pending.value.consent)
             || (Handled(p, e).Some? && Handled(p, e).value.RouteResync?)
    ensures PendingAfter(p, e).None? && ConfirmedBy(p, e) == []
  {
    hide Resets, EpochPasses;
  }

  lemma WithdrawalStepLogs(p: Plane, e: Event)
    requires PlaneOk(p)
    ensures |Step(p, e).input.outcomes| >= |p.input.outcomes|
  {
    hide PlaneOk, Step, LaterLife, LaterRoute;
    StepLater(p, e);
  }

  lemma RejectionLogged(fixedSubscription: bool, events: seq<Event>)
    requires Run(Initial(fixedSubscription), events).input.pending.Some?
    ensures var i := Run(Initial(fixedSubscription), events).input; i.pending.value.rejection < |i.outcomes|
  {
    hide Run;
    ConsentIsCurrent(fixedSubscription, events);
  }

  // ---------------------------------------------------------------------------
  // The line of operations waiting and in flight.
  // ---------------------------------------------------------------------------

  /** The entries in flight, but for the RESIZE of the slot. */
  function Payloads(inflight: seq<Inflight>): seq<Entry> {
    if inflight == [] then []
    else
      var last := inflight[|inflight| - 1];
      Payloads(inflight[..|inflight| - 1]) + if last.entry.op.Resize? then [] else [last.entry]
  }

  /** Everything admitted and not settled, oldest first. */
  function Line(i: Input): seq<Entry> { Payloads(i.inflight) + i.queued }

  /** The entry event e admits. */
  function AdmittedEntry(p: Plane, e: Event): seq<Entry> {
    if !Calls(p, e) then [] else
      match e
      case EvSendInput(op, n) => [Entry(p.input.nextTicket, op, n, None, 0, None)]
      case EvPaste(_, data) => [Entry(p.input.nextTicket, Paste(data, false), |data|, Some(data), p.input.pasteAttempt + 1, None)]
      case EvConfirm(_, _) =>
        [Entry(p.input.nextTicket, Paste(p.input.pending.value.data, true), |p.input.pending.value.data|, None, 0, Some(|p.input.confirmed|))]
      case _ => []
  }

  /** The place in the window of the operation event e settles, or the window's length. */
  function SettledAt(p: Plane, e: Event): nat {
    match e
    case EvDispatch(_, _) =>
      if Handled(p, e).Some? && Handled(p, e).value.InputResult? then IndexOf(p.input.inflight, Handled(p, e).value.operationId)
      else |p.input.inflight|
    case EvChainCatch(g) =>
      if HeadIs(p.input, g, Failed) && Holds(p.input, p.input.Chain(g)[0].item)
      then IndexOf(p.input.inflight, p.input.Chain(g)[0].item.operationId) else |p.input.inflight|
    case _ => |p.input.inflight|
  }

  function WithoutAt(inflight: seq<Inflight>, k: nat): seq<Inflight> {
    if k < |inflight| then inflight[..k] + inflight[k + 1..] else inflight
  }

  /** The line after event e: emptied by a reset; longer by what is admitted; shorter by what is settled. */
  function LineAfter(p: Plane, e: Event): seq<Entry> {
    if Resets(p, e) then []
    else Payloads(WithoutAt(p.input.inflight, SettledAt(p, e))) + p.input.queued + AdmittedEntry(p, e)
  }

  lemma PayloadsMore(inflight: seq<Inflight>, x: Inflight)
    ensures Payloads(inflight + [x]) == Payloads(inflight) + if x.entry.op.Resize? then [] else [x.entry]
  {
    assert (inflight + [x])[..|inflight|] == inflight;
  }

  lemma {:induction false} PayloadsConcat(a: seq<Inflight>, b: seq<Inflight>)
    ensures Payloads(a + b) == Payloads(a) + Payloads(b)
  {
    if b == [] {
      assert a + b == a;
    } else {
      assert (a + b)[..|a + b| - 1] == a + b[..|b| - 1];
      PayloadsConcat(a, b[..|b| - 1]);
    }
  }

  lemma PayloadsOne(x: Inflight)
    ensures Payloads([x]) == if x.entry.op.Resize? then [] else [x.entry]
  {
    assert [x][..0] == [];
  }

  /** Taking a RESIZE out of the window leaves the line alone. */
  lemma ResizeOut(inflight: seq<Inflight>, k: nat)
    requires k < |inflight| && inflight[k].entry.op.Resize?
    ensures Payloads(WithoutAt(inflight, k)) == Payloads(inflight)
  {
    hide Payloads;
    var a, x, b := inflight[..k], inflight[k], inflight[k + 1..];
    assert inflight == a + [x] + b;
    PayloadsConcat(a + [x], b);
    PayloadsConcat(a, [x]);
    PayloadsConcat(a, b);
    PayloadsOne(x);
    assert Payloads(a) + [] == Payloads(a);
  }

  ghost predicate NoResizeQueued(queued: seq<Entry>) { forall k :: 0 <= k < |queued| ==> !queued[k].op.Resize? }

  lemma {:induction false} FillLine(i: Input, g: nat)
    requires NoResizeQueued(i.queued)
    ensures Line(Fill(i, g)) == Line(i)
    decreases |i.queued|
  {
    hide Payloads, Line;
    if |i.inflight| < MAX_INFLIGHT_INPUT_OPERATIONS && i.queued != [] {
      AppendLine(i, g);
      FillLine(Append(i.(queued := i.queued[1..]), g, i.queued[0]), g);
    }
  }

  lemma AppendLine(i: Input, g: nat)
    requires NoResizeQueued(i.queued) && i.queued != []
    ensures var more := Append(i.(queued := i.queued[1..]), g, i.queued[0]); Line(more) == Line(i) && NoResizeQueued(more.queued)
  {
    hide Payloads;
    var more := Append(i.(queued := i.queued[1..]), g, i.queued[0]);
    PayloadsMore(i.inflight, Inflight(i.queued[0], i.nextOperationId, g));
    assert i.queued == [i.queued[0]] + i.queued[1..];
  }

  /** Pumping moves operations into the window in their order. */
  lemma PumpLine(i: Input, gate: Gate)
    requires NoResizeQueued(i.queued)
    ensures Line(Pump(i, gate)) == Line(i)
  {
    if gate.Open() {
      if GeometryDue(i, gate) { PayloadsMore(i.inflight, SendGeometry(i, gate).inflight[|i.inflight|]); }
      FillLine(SendGeometry(i, gate), gate.generation);
    }
  }

  lemma QueueIsPayload(p: Plane)
    requires PlaneOk(p)
    ensures NoResizeQueued(p.input.queued)
    ensures forall k :: 0 <= k < |p.input.inflight| ==>
      (p.input.inflight[k].entry.op.Resize? <==> p.input.geometryOperation == Some(p.input.inflight[k].entry.ticket))
  {
    hide WindowOk, BytesOk, ChainsOk, OrderOk, FenceOk, UnsafeOk, TicketsOk, LinkOk, OpeningsOk, QueuesOk, SerialOk, OutputOk, DetachOk, ReattachOk;
  }

  lemma CallLine(p: Plane, e: Event)
    requires PlaneOk(p) && Calling(e)
    ensures Line(Step(p, e).input) == LineAfter(p, e)
  {
    hide PlaneOk, EnsureAttached, Pump, Calls, OnUser, CalledWith, AdmittedEntry, Payloads;
    CallParts(p, e);
    QueueIsPayload(p);
    CallEntry(p, e);
    assert WithoutAt(p.input.inflight, SettledAt(p, e)) == p.input.inflight;
    if Calls(p, e) {
      var attached := EnsureAttached(CalledWith(p, e));
      ResetInput(CalledWith(p, e));
      PumpLine(attached.input, GateOf(attached.life, attached.route));
    }
  }

  lemma CallEntry(p: Plane, e: Event)
    requires Calling(e) && NoResizeQueued(p.input.queued)
    ensures Calls(p, e) ==>
      var i := CalledWith(p, e).input;
      i.inflight == p.input.inflight && i.queued == p.input.queued + AdmittedEntry(p, e) && NoResizeQueued(i.queued)
    ensures !Calls(p, e) ==>
      OnUser(p, e).input.inflight == p.input.inflight && OnUser(p, e).input.queued == p.input.queued && AdmittedEntry(p, e) == []
  {
    hide EnsureAttached, PumpPlane, QueuedBytes, InflightBytes;
  }

  /** What a settlement or a release leaves of the line. */
  lemma SettleLine(i: Input, gate: Gate, item: Inflight, name: OutcomeName, accepted: Option<nat>, written: Option<nat>, now: nat)
    requires NoResizeQueued(i.queued)
    ensures Line(Settle(i, gate, item, name, accepted, written, now))
      == Payloads(WithoutAt(i.inflight, if Holds(i, item) then IndexOf(i.inflight, item.operationId) else |i.inflight|)) + i.queued
  {
    hide Pump, Payloads;
    if Holds(i, item) { PumpLine(Record(i, gate, item, name, accepted, written, now), gate); }
  }

  lemma ReleaseLine(i: Input, gate: Gate, item: Inflight)
    requires NoResizeQueued(i.queued)
    requires Holds(i, item) ==> i.inflight[IndexOf(i.inflight, item.operationId)].entry.op.Resize?
    ensures Line(Pump(Release(i, item), gate)) == Line(i)
  {
    hide Pump, Payloads;
    PumpLine(Release(i, item), gate);
    if Holds(i, item) { ResizeOut(i.inflight, IndexOf(i.inflight, item.operationId)); }
  }

  /** A link that starts settles nothing that is in flight. */
  lemma RunLine(p: Plane, g: nat)
    requires PlaneOk(p)
    ensures Line(ChainRun(p.input, GateOf(p.life, p.route), g)) == Line(p.input)
  {
    hide PlaneOk, InputOk, Settle, Pump, Release, Payloads, Holds;
    var i, gate := p.input, GateOf(p.life, p.route);
    GateAligned(p);
    QueueIsPayload(p);
    if HeadIs(i, g, Waiting) {
      var item := i.Chain(g)[0].item;
      var popped := PopHead(i, g);
      if g != gate.generation { StaleLinkUnheld(i, gate, g); } else { ChainMeansOpen(i, gate); }
      HeadLinked(i, gate, g);
      HeadTag(i, g);
      SettleLine(popped, gate, item, Cancelled, None, None, 0);
      if i.geometryOperation == Some(item.entry.ticket) {
        SlotHeld(popped, item);
        ReleaseLine(popped, gate, item);
      }
    }
  }

  lemma HeadTag(i: Input, g: nat)
    requires i.Chain(g) != [] && StreamOk(i.Chain(g), i.Wire(g), g)
    ensures i.Chain(g)[0].item.generation == g
  {
  }

  /** What the slot holds is a RESIZE. */
  lemma SlotHeld(i: Input, item: Inflight)
    requires i.geometryOperation == Some(item.entry.ticket)
    requires forall k :: 0 <= k < |i.inflight| ==>
      (i.inflight[k].entry.op.Resize? <==> i.geometryOperation == Some(i.inflight[k].entry.ticket))
    ensures Holds(i, item) ==> i.inflight[IndexOf(i.inflight, item.operationId)].entry.op.Resize?
  {
  }

  lemma ChainLine(p: Plane, e: Event)
    requires PlaneOk(p) && e.Chain()
    ensures Line(Step(p, e).input) == LineAfter(p, e)
  {
    hide PlaneOk, Settle, Payloads, ChainRun;
    var i, gate := p.input, GateOf(p.life, p.route);
    ChainStep(p, e);
    QueueIsPayload(p);
    ChainNeverResets(p, e);
    assert WithoutAt(i.inflight, |i.inflight|) == i.inflight;
    assert Payloads(i.inflight) + i.queued + [] == Payloads(i.inflight) + i.queued;
    if e.EvChainRun? {
      RunLine(p, e.generation);
    } else if e.EvChainCatch? && i.Chain(e.generation) != [] {
      SettleLine(PopHead(i, e.generation), gate, i.Chain(e.generation)[0].item, Cancelled, None, None, 0);
    }
  }

  lemma FrameLine(p: Plane, e: Event)
    requires PlaneOk(p) && FrameInput(p, e).Some?
    ensures Line(FrameInput(p, e).value) == LineAfter(p, e)
  {
    hide PlaneOk, Step, Pump, EpochPasses, Resets, Payloads, SettleResult;
    QueueIsPayload(p);
    PumpLine(p.input, GateOf(Step(p, e).life, Step(p, e).route));
    assert WithoutAt(p.input.inflight, |p.input.inflight|) == p.input.inflight;
    var body := Handled(p, e).value;
    if body.InputResult? { ResultLine(p, body, e.now); }
  }

  lemma ResultLine(p: Plane, body: Body, now: nat)
    requires PlaneOk(p) && body.InputResult?
    ensures Line(SettleResult(p.input, GateOf(p.life, p.route), body.operationId, body.name, body.accepted, body.written, now))
      == Payloads(WithoutAt(p.input.inflight, IndexOf(p.input.inflight, body.operationId))) + p.input.queued
  {
    hide PlaneOk, InputOk, Settle, Payloads;
    var i, gate := p.input, GateOf(p.life, p.route);
    var k := IndexOf(i.inflight, body.operationId);
    GateAligned(p);
    QueueIsPayload(p);
    if k < |i.inflight| {
      WindowTag(i, gate, k);
      SettleLine(i, gate, i.inflight[k], body.name, body.accepted, body.written, now);
    }
  }

  lemma WindowTag(i: Input, gate: Gate, k: nat)
    requires InputOk(i, gate) && k < |i.inflight| && k == IndexOf(i.inflight, i.inflight[k].operationId)
    ensures i.inflight[k].generation == gate.generation && Holds(i, i.inflight[k])
  {
    hide TicketsOk, GeometryOk, BytesOk, ChainsOk, OrderOk, FenceOk, UnsafeOk;
  }

  /** Admitted operations wait and fly in the order they were admitted: for every event of every reachable state
      the line is exactly what it was, longer by what the event admits, shorter by what it settles, and empty
      after a reset. */
  lemma LineExact(p: Plane, e: Event)
    requires PlaneOk(p)
    ensures Line(Step(p, e).input) == LineAfter(p, e)
  {
    hide PlaneOk, Step, Resets, Handled, HandledInput, FrameInput, Payloads;
    if Calling(e) {
      CallLine(p, e);
    } else if e.Chain() {
      ChainLine(p, e);
    } else {
      InputParts(p, e);
      if Resets(p, e) {
        AbandonedPending(p.input, p.life.generation);
        NoPayloads();
      } else if FrameInput(p, e).Some? {
        FrameLine(p, e);
      } else {
        QuietLine(p, e);
      }
    }
  }

  lemma NoPayloads()
    ensures Payloads([]) == []
  {
  }

  lemma QuietLine(p: Plane, e: Event)
    requires !Calling(e) && !e.Chain() && !Resets(p, e) && FrameInput(p, e).None?
    ensures LineAfter(p, e) == Line(p.input)
  {
    hide Step, Resets, EpochPasses, Payloads;
    assert WithoutAt(p.input.inflight, |p.input.inflight|) == p.input.inflight;
  }

  // ---------------------------------------------------------------------------
  // The RESIZE slot.
  // ---------------------------------------------------------------------------

  /** The stream is attached, the screen live, and the latest geometry requested is not the one recorded as sent. */
  predicate Wants(p: Plane) {
    && !p.life.detached && p.life.stream.Some? && p.route.attached && LiveScreen(p)
    && p.input.desired.Some? && p.input.sent != p.input.desired
  }

  /** A RESIZE that takes the slot is due at this gate. */
  predicate SlotMoves(i: Input, j: Input, gate: Gate) {
    j.geometryOperation.Some? && j.geometryOperation != i.geometryOperation ==>
      gate.Open() && gate.hydrated && j.desired.Some? && j.sent != j.desired
  }

  lemma PumpSlot(i: Input, gate: Gate)
    ensures SlotMoves(i, Pump(i, gate), gate)
  {
    FillGrows(SendGeometry(i, gate), gate.generation);
  }

  lemma SettleSlot(i: Input, gate: Gate, item: Inflight, name: OutcomeName, accepted: Option<nat>, written: Option<nat>, now: nat)
    ensures SlotMoves(i, Settle(i, gate, item, name, accepted, written, now), gate)
    ensures SlotMoves(i, Pump(Release(i, item), gate), gate)
  {
    hide Pump;
    PumpSlot(Release(i, item), gate);
    if Holds(i, item) { PumpSlot(Record(i, gate, item, name, accepted, written, now), gate); }
  }

  lemma ChainSlot(i: Input, gate: Gate, e: Event)
    requires e.Chain()
    ensures SlotMoves(i, ChainInput(i, gate, e), gate)
  {
    hide Settle, Pump, Release;
    if i.Chain(e.generation) != [] {
      SettleSlot(PopHead(i, e.generation), gate, i.Chain(e.generation)[0].item, Cancelled, None, None, 0);
    }
  }

  lemma CallSlot(p: Plane, e: Event)
    requires Calling(e)
    ensures var q := Step(p, e); SlotMoves(p.input, q.input, GateOf(q.life, q.route))
  {
    hide EnsureAttached, Pump, Calls, OnUser, CalledWith;
    CallParts(p, e);
    SameSlot(p, e);
    var attached := EnsureAttached(CalledWith(p, e));
    ResetInput(CalledWith(p, e));
    PumpSlot(attached.input, GateOf(attached.life, attached.route));
  }

  lemma SameSlot(p: Plane, e: Event)
    requires Calling(e)
    ensures Calls(p, e) ==> CalledWith(p, e).input.geometryOperation == p.input.geometryOperation
    ensures !Calls(p, e) ==> OnUser(p, e).input.geometryOperation == p.input.geometryOperation
  {
    hide EnsureAttached, PumpPlane, QueuedBytes, InflightBytes;
  }

  lemma FrameSlot(p: Plane, e: Event)
    requires PlaneOk(p) && FrameInput(p, e).Some?
    ensures var q := Step(p, e); SlotMoves(p.input, FrameInput(p, e).value, GateOf(q.life, q.route))
  {
    hide PlaneOk, Step, Pump, EpochPasses, Resets;
    var q, body := Step(p, e), Handled(p, e).value;
    PumpSlot(p.input, GateOf(q.life, q.route));
    if body.InputResult? {
      ResultGate(p, e);
      var gate := GateOf(p.life, p.route);
      var k := IndexOf(p.input.inflight, body.operationId);
      if k < |p.input.inflight| { SettleSlot(p.input, gate, p.input.inflight[k], body.name, body.accepted, body.written, e.now); }
    }
  }

  /** An INPUT_RESULT does not move the gate. */
  lemma ResultGate(p: Plane, e: Event)
    requires PlaneOk(p) && e.EvDispatch? && Handled(p, e).Some? && Handled(p, e).value.InputResult?
    ensures GateOf(Step(p, e).life, Step(p, e).route) == GateOf(p.life, p.route)
  {
    hide PlaneOk, EpochPasses, SettleResult;
    DispatchParts(p, e);
  }

  /** A RESIZE is appended only where one is wanted: on the attached stream of a live screen that was not sent the
      latest geometry; that it is appended there at once is part of `NeverDue`. */
  lemma ResizeAppended(p: Plane, e: Event)
    requires PlaneOk(p)
    ensures var q := Step(p, e);
      q.input.geometryOperation.Some? && q.input.geometryOperation != p.input.geometryOperation ==> Wants(q)
  {
    hide PlaneOk, Step, Resets, Handled, HandledInput, FrameInput;
    var q := Step(p, e);
    StepOk(p, e);
    GateWants(q);
    if Calling(e) {
      CallSlot(p, e);
    } else if e.Chain() {
      ChainStep(p, e);
      ChainSlot(p.input, GateOf(p.life, p.route), e);
    } else {
      InputParts(p, e);
      if FrameInput(p, e).Some? { FrameSlot(p, e); }
    }
  }

  lemma GateWants(p: Plane)
    requires PlaneOk(p)
    ensures GateOf(p.life, p.route).Open() && GateOf(p.life, p.route).hydrated && p.input.desired.Some? && p.input.sent != p.input.desired
      ==> Wants(p)
  {
    hide InputOk, QueuesOk, SerialOk, OutputOk, DetachOk, ReattachOk, OpeningsOk;
  }

  /** The same with the window's bound: nothing waits while fewer than 32 operations are in flight, and none is
      appended beyond. */
  lemma WindowIsUsed(fixedSubscription: bool, events: seq<Event>)
    ensures var p := Run(Initial(fixedSubscription), events);
      !p.life.detached && p.life.stream.Some? && p.route.attached && |p.input.inflight| < 32 ==>
        && p.input.queued == []
        && (Wants(p) ==> p.input.geometryOperation.Some?)
  {
    hide Run, Step;
    NeverDue(fixedSubscription, events);
    RunOk(fixedSubscription, events);
    GateHolds(Run(Initial(fixedSubscription), events));
  }

  lemma GateHolds(p: Plane)
    requires PlaneOk(p)
    ensures Wants(p) ==> GateOf(p.life, p.route).hydrated
    ensures !p.life.detached && p.life.stream.Some? && p.route.attached ==> GateOf(p.life, p.route).Open()
  {
    hide InputOk, QueuesOk, SerialOk, OutputOk, DetachOk, ReattachOk, OpeningsOk;
  }
}
