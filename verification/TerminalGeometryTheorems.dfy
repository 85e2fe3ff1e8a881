/** Latest-wins geometry, over every run. A RESIZE is never left due. The stream was offered the latest request
    last exactly when the last offer was not of a RESIZE that had lost its slot, with another geometry than the
    one recorded; that takes an INPUT_RESULT that answers a RESIZE before it was sent. */
module TerminalGeometryTheorems {
  import opened Wrappers
  import opened TerminalInput
  import opened TerminalInputProofs
  import opened TerminalPlane
  import opened TerminalPlaneProofs
  import opened TerminalHistory
  import opened TerminalOutputTheorems
  import opened TerminalSettlementTheorems

  // ---------------------------------------------------------------------------
  // The geometries a stream has been offered.
  // ---------------------------------------------------------------------------

  function Resizes(wire: seq<WireFrame>): seq<Geometry> {
    if wire == [] then [] else
      var op := wire[|wire| - 1].item.entry.op;
      Resizes(wire[..|wire| - 1]) + if op.Resize? then [op.geometry] else []
  }

  function LastOf(sizes: seq<Geometry>): Option<Geometry> {
    if sizes == [] then None else Some(sizes[|sizes| - 1])
  }

  ghost predicate NoRepeats(sizes: seq<Geometry>) {
    forall k :: 0 < k < |sizes| ==> sizes[k] != sizes[k - 1]
  }

  lemma ResizesStep(wire: seq<WireFrame>, frame: WireFrame)
    ensures Resizes(wire + [frame]) == Resizes(wire) + if frame.item.entry.op.Resize? then [frame.item.entry.op.geometry] else []
  {
    assert (wire + [frame])[..|wire|] == wire;
  }

  // ---------------------------------------------------------------------------
  // The two properties.
  // ---------------------------------------------------------------------------

  /** The route could take a queued operation. */
  predicate QueueDue(i: Input, gate: Gate) { gate.Open() && |i.inflight| < MAX_INFLIGHT_INPUT_OPERATIONS && i.queued != [] }

  /** The route could take an operation that waits, or a RESIZE when the latest request was not sent. */
  predicate PumpDue(i: Input, gate: Gate) { GeometryDue(i, gate) || QueueDue(i, gate) }

  predicate Due(p: Plane) { PumpDue(p.input, GateOf(p.life, p.route)) }

  /** Links join a chain at its end, waiting. */
  ghost predicate Extends(chain: seq<Job>, chain': seq<Job>) {
    chain <= chain' && forall k :: |chain| <= k < |chain'| ==> chain'[k].phase.Waiting?
  }

  ghost predicate ChainsExtend(i: Input, j: Input) { forall g: nat :: Extends(i.Chain(g), j.Chain(g)) }

  /** The same operation, whatever geometry it carries. */
  predicate Same(a: Inflight, b: Inflight) { a.operationId == b.operationId && a.entry.ticket == b.entry.ticket }

  ghost predicate InChain(i: Input, x: Inflight) {
    exists k :: 0 <= k < |i.Chain(x.generation)| && Same(i.Chain(x.generation)[k].item, x)
  }

  ghost predicate Begun(i: Input, x: Inflight) {
    exists k :: 0 <= k < |i.Wire(x.generation)| && Same(i.Wire(x.generation)[k].item, x)
  }

  /** Every operation in flight has its link in the chain of its attachment, or its stream was offered a frame of it. */
  ghost predicate Carried(i: Input) {
    forall k :: 0 <= k < |i.inflight| ==> InChain(i, i.inflight[k]) || Begun(i, i.inflight[k])
  }

  /** A RESIZE still waiting in the chain is still in flight. */
  ghost predicate WaitingHeld(chain: seq<Job>, inflight: seq<Inflight>) {
    forall k :: 0 <= k < |chain| && chain[k].phase.Waiting? && chain[k].item.entry.op.Resize? ==> chain[k].item in inflight
  }

  ghost predicate SentOk(wires: map<nat, seq<WireFrame>>, sent: Option<Geometry>, g: nat) {
    && (forall h: nat :: NoRepeats(Resizes(Of(wires, h))))
    && sent == LastOf(Resizes(Of(wires, g)))
  }

  /** The record of what was sent is what the stream was offered last, and no geometry was offered twice in a row. */
  ghost predicate Recorded(i: Input, g: nat) { SentOk(i.wires, i.sent, g) }

  ghost predicate Held(i: Input, g: nat) { WaitingHeld(Of(i.chains, g), i.inflight) }

  ghost predicate Stays(i: Input, j: Input, g: nat) {
    j.sent == i.sent && (Held(i, g) ==> Held(j, g))
  }

  /** A geometry is recorded only once the stream was offered one. */
  predicate Seen(i: Input, g: nat) { i.sent.Some? ==> Resizes(Of(i.wires, g)) != [] }

  /** The record stays, or nothing is recorded for a new stream that was offered nothing. */
  predicate SameRecord(i: Input, g: nat, j: Input, h: nat) {
    (h == g && j.sent == i.sent) || (j.sent.None? && Resizes(Of(j.wires, h)) == [])
  }

  /** What an event outside the send chain keeps; an INPUT_RESULT that comes too early may not keep waiting
      RESIZEs held. */
  ghost predicate KeepsIf(p: Plane, q: Plane, prompt: bool) {
    && q.input.wires == p.input.wires && ChainsExtend(p.input, q.input) && (Carried(p.input) ==> Carried(q.input))
    && (!Due(p) ==> !Due(q))
    && (Seen(p.input, p.life.generation) ==> SameRecord(p.input, p.life.generation, q.input, q.life.generation))
    && (prompt && Held(p.input, p.life.generation) ==> Held(q.input, q.life.generation))
  }

  ghost predicate Keeps(p: Plane, q: Plane) { KeepsIf(p, q, true) }

  lemma KeepsChain(p: Plane, q: Plane, r: Plane)
    requires Keeps(p, q) && Keeps(q, r)
    ensures Keeps(p, r)
  {
    hide Due, Held, Resizes, ChainsExtend, Carried;
    ExtendOn(p.input, q.input, r.input);
  }

  lemma ExtendOn(i: Input, j: Input, k: Input)
    requires ChainsExtend(i, j) && ChainsExtend(j, k)
    ensures ChainsExtend(i, k)
  {
    forall g: nat ensures Extends(i.Chain(g), k.Chain(g)) {
      assert Extends(i.Chain(g), j.Chain(g)) && Extends(j.Chain(g), k.Chain(g));
    }
  }

  lemma KeepsSelf(p: Plane)
    ensures Keeps(p, p)
  {
  }

  // ---------------------------------------------------------------------------
  // Pump, reset, attach.
  // ---------------------------------------------------------------------------

  lemma AppendHeld(i: Input, g: nat, entry: Entry)
    requires WaitingHeld(Of(i.chains, g), i.inflight)
    ensures var j := Append(i, g, entry); WaitingHeld(Of(j.chains, g), j.inflight)
  {
  }

  lemma {:induction false} FillHeld(i: Input, g: nat)
    requires WaitingHeld(Of(i.chains, g), i.inflight)
    ensures var j := Fill(i, g); WaitingHeld(Of(j.chains, g), j.inflight)
    decreases |i.queued|
  {
    hide WaitingHeld;
    if |i.inflight| < MAX_INFLIGHT_INPUT_OPERATIONS && i.queued != [] {
      var rest := i.(queued := i.queued[1..]);
      AppendHeld(rest, g, i.queued[0]);
      FillHeld(Append(rest, g, i.queued[0]), g);
    }
  }

  lemma {:induction false} FillGrows(i: Input, g: nat)
    ensures var j := Fill(i, g);
      |i.inflight| <= |j.inflight| && j.geometryOperation == i.geometryOperation && j.desired == i.desired && j.sent == i.sent
    decreases |i.queued|
  {
    if |i.inflight| < MAX_INFLIGHT_INPUT_OPERATIONS && i.queued != [] {
      FillGrows(Append(i.(queued := i.queued[1..]), g, i.queued[0]), g);
    }
  }

  lemma PumpStays(i: Input, gate: Gate)
    ensures Stays(i, Pump(i, gate), gate.generation)
  {
    hide WaitingHeld;
    PumpKeepsLogs(i, gate);
    if gate.Open() && Held(i, gate.generation) {
      if GeometryDue(i, gate) {
        var entry := Entry(i.nextTicket, Resize(i.desired.value), RESIZE_BODY_BYTES, None, 0, None);
        AppendHeld(i.(nextTicket := i.nextTicket + 1), gate.generation, entry);
      }
      FillHeld(SendGeometry(i, gate), gate.generation);
    }
  }

  /** What is carried stays carried while chains and streams only grow. */
  lemma CarriedOn(i: Input, j: Input, x: Inflight)
    requires Extends(i.Chain(x.generation), j.Chain(x.generation)) && i.Wire(x.generation) <= j.Wire(x.generation)
    requires InChain(i, x) || Begun(i, x)
    ensures InChain(j, x) || Begun(j, x)
  {
    if InChain(i, x) {
      var k :| 0 <= k < |i.Chain(x.generation)| && Same(i.Chain(x.generation)[k].item, x);
      assert j.Chain(x.generation)[k] == i.Chain(x.generation)[k];
    } else {
      var k :| 0 <= k < |i.Wire(x.generation)| && Same(i.Wire(x.generation)[k].item, x);
      assert j.Wire(x.generation)[k] == i.Wire(x.generation)[k];
    }
  }

  /** Fewer operations in flight, the same chains and streams. */
  lemma FewerCarried(i: Input, j: Input)
    requires Carried(i) && j.chains == i.chains && j.wires == i.wires
    requires forall k :: 0 <= k < |j.inflight| ==> j.inflight[k] in i.inflight
    ensures Carried(j)
  {
    forall k | 0 <= k < |j.inflight| ensures InChain(j, j.inflight[k]) || Begun(j, j.inflight[k]) {
      var m :| 0 <= m < |i.inflight| && i.inflight[m] == j.inflight[k];
      CarriedOn(i, j, j.inflight[k]);
    }
  }

  lemma AppendCarried(i: Input, g: nat, entry: Entry)
    requires Carried(i)
    ensures Carried(Append(i, g, entry))
  {
    hide InChain, Begun;
    var j := Append(i, g, entry);
    AppendExtends(i, g, entry);
    forall k | 0 <= k < |j.inflight| ensures InChain(j, j.inflight[k]) || Begun(j, j.inflight[k]) {
      if k < |i.inflight| {
        assert Extends(i.Chain(i.inflight[k].generation), j.Chain(i.inflight[k].generation));
        CarriedOn(i, j, i.inflight[k]);
      } else {
        JustAppended(i, g, entry);
      }
    }
  }

  lemma JustAppended(i: Input, g: nat, entry: Entry)
    ensures InChain(Append(i, g, entry), Inflight(entry, i.nextOperationId, g))
  {
    var chain := Append(i, g, entry).Chain(g);
    assert chain[|chain| - 1].item == Inflight(entry, i.nextOperationId, g);
  }

  lemma {:induction false} FillCarried(i: Input, g: nat)
    requires Carried(i)
    ensures Carried(Fill(i, g))
    decreases |i.queued|
  {
    hide Carried;
    if |i.inflight| < MAX_INFLIGHT_INPUT_OPERATIONS && i.queued != [] {
      var rest := i.(queued := i.queued[1..]);
      SameCarried(i, rest);
      AppendCarried(rest, g, i.queued[0]);
      FillCarried(Append(rest, g, i.queued[0]), g);
    }
  }

  lemma SameCarried(i: Input, j: Input)
    requires Carried(i) && j.chains == i.chains && j.wires == i.wires && j.inflight == i.inflight
    ensures Carried(j)
  {
    FewerCarried(i, j);
  }

  lemma PumpCarried(i: Input, gate: Gate)
    requires Carried(i)
    ensures Carried(Pump(i, gate))
  {
    hide Carried;
    if gate.Open() {
      if GeometryDue(i, gate) {
        var entry := Entry(i.nextTicket, Resize(i.desired.value), RESIZE_BODY_BYTES, None, 0, None);
        var taken := i.(nextTicket := i.nextTicket + 1);
        SameCarried(i, taken);
        AppendCarried(taken, gate.generation, entry);
        SameCarried(Append(taken, gate.generation, entry), SendGeometry(i, gate));
      }
      FillCarried(SendGeometry(i, gate), gate.generation);
    }
  }

  lemma {:induction false} FillExtends(i: Input, g: nat)
    ensures ChainsExtend(i, Fill(i, g)) && (Fill(i, g).queued == [] || |Fill(i, g).inflight| >= MAX_INFLIGHT_INPUT_OPERATIONS)
    decreases |i.queued|
  {
    if |i.inflight| < MAX_INFLIGHT_INPUT_OPERATIONS && i.queued != [] {
      hide ChainsExtend;
      var rest := i.(queued := i.queued[1..]);
      AppendExtends(rest, g, i.queued[0]);
      FillExtends(Append(rest, g, i.queued[0]), g);
      ExtendOn(i, Append(rest, g, i.queued[0]), Fill(i, g));
    }
  }

  lemma AppendExtends(i: Input, g: nat, entry: Entry)
    ensures ChainsExtend(i, Append(i, g, entry)) && ChainsExtend(i.(queued := Append(i, g, entry).queued), Append(i, g, entry))
    ensures forall queued :: ChainsExtend(i.(queued := queued), Append(i, g, entry))
  {
  }

  lemma PumpExtends(i: Input, gate: Gate)
    ensures ChainsExtend(i, Pump(i, gate))
  {
    if gate.Open() {
      hide ChainsExtend;
      GeometryExtends(i, gate);
      FillExtends(SendGeometry(i, gate), gate.generation);
      ExtendOn(i, SendGeometry(i, gate), Pump(i, gate));
    }
  }

  lemma GeometryExtends(i: Input, gate: Gate)
    ensures ChainsExtend(i, SendGeometry(i, gate))
  {
  }

  /** The pump leaves nothing due. */
  lemma PumpNotDue(i: Input, gate: Gate)
    ensures !PumpDue(Pump(i, gate), gate)
  {
    hide ChainsExtend;
    FillGrows(SendGeometry(i, gate), gate.generation);
    FillExtends(SendGeometry(i, gate), gate.generation);
  }

  lemma PumpPlaneKeeps(p: Plane)
    ensures Keeps(p, PumpPlane(p)) && !Due(PumpPlane(p))
  {
    hide Recorded, Held;
    var gate := GateOf(p.life, p.route);
    PumpKeepsLogs(p.input, gate);
    PumpNotDue(p.input, gate);
    PumpStays(p.input, gate);
    PumpExtends(p.input, gate);
    if Carried(p.input) { PumpCarried(p.input, gate); }
  }

  lemma ResetKeeps(p: Plane)
    requires PlaneOk(p)
    ensures Keeps(p, Reset(p))
  {
    hide InputOk, QueuesOk, SerialOk, OutputOk, DetachOk, ReattachOk, OpeningsOk;
    var q := Reset(p);
    FreshGeneration(p.input, GateOf(p.life, p.route), GateOf(q.life, q.route));
  }

  /** Bookkeeping of the lifecycle: the gate does not move. */
  lemma LifeKeeps(p: Plane, life: Life)
    requires life.generation == p.life.generation && life.detached == p.life.detached && life.stream.Some? == p.life.stream.Some?
    ensures Keeps(p, p.(life := life))
  {
  }

  /** The route may close or stay, not open. */
  lemma RouteKeeps(p: Plane, route: Route)
    requires route.attached ==> p.route.attached
    requires ScreenHydrated(p.life, route) ==> ScreenHydrated(p.life, p.route)
    ensures Keeps(p, p.(route := route))
  {
  }

  lemma ResetAfterKeeps(p: Plane, life: Life)
    requires PlaneOk(p) && life.generation == p.life.generation
    ensures Keeps(p, Reset(p.(life := life)))
  {
    hide PlaneOk, Recorded, Held;
    ResetKeeps(p);
    assert Reset(p.(life := life)).input == Reset(p).input;
    assert Reset(p.(life := life)).life.generation == Reset(p).life.generation;
  }

  lemma CloseStreamKeeps(p: Plane)
    requires PlaneOk(p)
    ensures Keeps(p, CloseStream(p))
  {
    hide PlaneOk, Keeps;
    ResetAfterKeeps(p, p.life);
    ResetAfterKeeps(p, SendDetachOnce(p.life, HeldNow(p.life, p.route)));
  }

  lemma ClosedEmpty(i: Input, gate: Gate)
    requires InputOk(i, gate) && gate.stream.None?
    ensures Of(i.chains, gate.generation) == [] && Of(i.wires, gate.generation) == []
  {
    hide WindowOk, GeometryOk, BytesOk, OrderOk, FenceOk, SlotOk, UnsafeOk;
    assert StreamOk(Of(i.chains, gate.generation), Of(i.wires, gate.generation), gate.generation);
  }

  lemma EnsureAttachedKeeps(p: Plane)
    requires PlaneOk(p)
    ensures Keeps(p, EnsureAttached(p))
  {
    hide InputOk, QueuesOk, SerialOk, OutputOk, DetachOk, ReattachOk, OpeningsOk, Carried;
    var q := EnsureAttached(p);
    if Carried(p.input) { SameCarried(p.input, q.input); }
    if q.life.generation != p.life.generation {
      var gate := GateOf(p.life, p.route);
      ClosedEmpty(p.input, gate);
      FreshGeneration(p.input, gate, GateOf(q.life, q.route));
    }
  }

  lemma AttachResumeKeeps(p: Plane, g: nat)
    requires PlaneOk(p)
    ensures Keeps(p, AttachResume(p, g))
  {
    hide InputOk, QueuesOk, SerialOk, OutputOk, DetachOk, ReattachOk, OpeningsOk, Recorded, Held;
  }

  lemma AttachProgressKeeps(p: Plane, g: nat, reserved: Option<nat>)
    ensures Keeps(p, AttachReady(p, g, reserved)) && Keeps(p, AttachRejected(p, g))
    ensures Keeps(p, AttachCleared(p, g)) && Keeps(p, MarkAttachSent(p, g))
  {
    hide Recorded, Held;
  }

  lemma MintKeeps(p: Plane, life: Life)
    requires PlaneOk(p.(life := life))
    requires life.generation == p.life.generation && life.detached == p.life.detached && life.stream.Some? == p.life.stream.Some?
    ensures Keeps(p, EnsureAttached(p.(life := life)))
  {
    hide PlaneOk, Keeps;
    LifeKeeps(p, life);
    EnsureAttachedKeeps(p.(life := life));
    KeepsChain(p, p.(life := life), EnsureAttached(p.(life := life)));
  }

  lemma RecoverRouteKeeps(p: Plane, hydration: nat)
    requires PlaneOk(p) && !p.life.detached
    ensures Keeps(p, RecoverRoute(p, hydration))
  {
    hide InputOk, QueuesOk, SerialOk, OutputOk, DetachOk, ReattachOk, OpeningsOk, LinkOk, Keeps;
    KeepsSelf(p);
    CloseStreamKeeps(p);
    if p.route.hydration.Some? && p.route.hydration.value.id == hydration
       && !(p.life.snapshotRecoveries >= 1 || p.life.fixedSubscription) {
      var life := p.life.(snapshotRecoveries := p.life.snapshotRecoveries + 1,
                          reattaches := p.life.reattaches + [p.life.recoveryEpoch]);
      var q := CloseStream(p.(life := life));
      ReattachNamed(p.life.reattaches, p.life.recoveryEpoch);
      ClosingOk(p, life.snapshotRecoveries, life.reattaches);
      ResetAfterKeeps(p, if life.stream.Some? then SendDetachOnce(life, HeldNow(life, p.route)) else life);
      MintOk(q);
      MintKeeps(q, MintSubscription(q.life));
      KeepsChain(p, q, RecoverRoute(p, hydration));
    }
  }

  lemma LifecycleKeeps(p: Plane, listener: nat)
    requires PlaneOk(p)
    ensures Keeps(p, Subscribe(p, listener)) && Keeps(p, Unsubscribe(p, listener)) && Keeps(p, TransportLost(p))
  {
    hide InputOk, QueuesOk, SerialOk, OutputOk, DetachOk, ReattachOk, OpeningsOk, Keeps;
    KeepsSelf(p);
    var more := p.life.(listeners := p.life.listeners + {listener});
    LifeChangeOk(p, more);
    LifeKeeps(p, more);
    MintKeeps(p, more);
    var less := p.life.(listeners := p.life.listeners - {listener});
    LifeKeeps(p, less);
    ResetAfterKeeps(p, if less.stream.Some? then SendDetachOnce(less, HeldNow(less, p.route)) else less);
    ResetAfterKeeps(p, TransportLostLife(p));
  }

  lemma DetachKeeps(p: Plane)
    requires PlaneOk(p)
    ensures Keeps(p, DetachPlane(p))
  {
    hide PlaneOk, Recorded, Held;
    KeepsSelf(p);
    ResetAfterKeeps(p, p.life.(detached := true, transportLost := false));
  }

  lemma RecoveryKeeps(p: Plane)
    requires PlaneOk(p)
    ensures Keeps(p, TransportRecovered(p)) && Keeps(p, RecoveryContinues(p))
  {
    hide InputOk, QueuesOk, SerialOk, OutputOk, DetachOk, ReattachOk, OpeningsOk, Keeps;
    KeepsSelf(p);
    if !p.life.detached && p.life.transportLost && p.life.listeners != {} {
      var owed := p.life.lastAbandoned;
      var life := p.life.(transportLost := false, snapshotRecoveries := 0, lastAbandoned := None,
                          recoveryEpoch := p.life.recoveryEpoch + 1);
      NewEpoch(p.life.reattaches, p.life.recoveryEpoch, p.life.snapshotRecoveries);
      DebtSettled(p.life.detaches, owed, p.life.generation);
      LifeChangeOk(p, life);
      LifeChangeOk(p, MintSubscription(life));
      MintKeeps(p, life);
      MintKeeps(p, MintSubscription(life));
      if owed.Some? && owed.value.attachSent && !life.fixedSubscription { LifeKeeps(p, TransportRecovered(p).life); }
    }
    if p.life.continuations != 0 {
      var next := p.life.(continuations := p.life.continuations - 1);
      LifeChangeOk(p, next);
      LifeKeeps(p, next);
      MintKeeps(p, next);
    }
  }

  // ---------------------------------------------------------------------------
  // User input.
  // ---------------------------------------------------------------------------

  predicate SameStream(i: Input, j: Input) {
    j.wires == i.wires && j.chains == i.chains && j.inflight == i.inflight && j.sent == i.sent
  }

  lemma AdmittedKeeps(p: Plane, input: Input)
    requires PlaneOk(p) && SameStream(p.input, input)
    ensures Keeps(p, PumpPlane(EnsureAttached(p.(input := input))))
  {
    hide PlaneOk, SentOk, WaitingHeld, PumpPlane, Carried;
    EnsureAttachedKeeps(p);
    var attached := EnsureAttached(p.(input := input));
    if Carried(p.input) { SameCarried(p.input, attached.input); }
    PumpPlaneKeeps(EnsureAttached(p.(input := input)));
  }

  lemma RefusedKeeps(p: Plane, input: Input)
    requires SameStream(p.input, input) && input.desired == p.input.desired && input.geometryOperation == p.input.geometryOperation
    requires input.queued == p.input.queued
    ensures Keeps(p, p.(input := input))
  {
    hide SentOk, WaitingHeld, Carried;
    if Carried(p.input) { SameCarried(p.input, input); }
  }

  lemma UserKeeps(p: Plane, op: Operation, requestedBytes: nat, geometry: Geometry, units: nat, data: Bytes)
    requires PlaneOk(p)
    ensures Keeps(p, SendInput(p, op, requestedBytes)) && Keeps(p, ResizeTo(p, geometry)) && Keeps(p, WritePaste(p, units, data))
  {
    hide PlaneOk, Keeps, PumpPlane, EnsureAttached, Admits;
    KeepsSelf(p);
    AdmittedKeeps(p, AdmitInput(p.input, op, requestedBytes));
    AdmittedKeeps(p, p.input.(desired := Some(geometry)));
    AdmittedKeeps(p, AdmitPaste(BeginPaste(p.input), data));
    if !Admits(p.input, op) { RefusedKeeps(p, AdmitInput(p.input, op, requestedBytes)); }
    if !Admits(BeginPaste(p.input), Paste(data, false)) { RefusedKeeps(p, AdmitPaste(BeginPaste(p.input), data)); }
    var refusal := PasteRefusal(!p.life.detached, units, data);
    if refusal.Some? { RefusedKeeps(p, Refuse(BeginPaste(p.input), refusal.value)); }
  }

  lemma ConsentKeeps(p: Plane, consent: Consent, now: nat)
    requires PlaneOk(p)
    ensures Keeps(p, Confirm(p, consent, now)) && Keeps(p, CancelPaste(p, consent))
  {
    hide PlaneOk, Keeps, PumpPlane, EnsureAttached, Admits;
    KeepsSelf(p);
    RefusedKeeps(p, ReleaseConsent(p.input));
    RefusedKeeps(p, Cancel(p.input, consent));
    if p.input.pending.Some? {
      AdmittedKeeps(p, AdmitConfirmed(p.input));
      if !Admits(ReleaseConsent(p.input), Paste(p.input.pending.value.data, true)) { RefusedKeeps(p, AdmitConfirmed(p.input)); }
    }
  }

  // ---------------------------------------------------------------------------
  // Frames and installs.
  // ---------------------------------------------------------------------------

  lemma InstallKeeps(p: Plane, q: nat, hydration: nat)
    requires PlaneOk(p)
    ensures Keeps(p, StartInstall(p, q)) && Keeps(p, HydrationTimeout(p, hydration))
  {
    hide InputOk, QueuesOk, SerialOk, DetachOk, ReattachOk, OpeningsOk, Keeps, CloseStream, RecoverRoute;
    KeepsSelf(p);
    var queue := p.route.Queue(q);
    if queue.install.Some? {
      var ended := EndInstall(p, q);
      EndInstallOk(p, q);
      RouteKeeps(p, ended.route);
      CloseStreamKeeps(ended);
      KeepsChain(p, ended, CloseStream(ended));
      RouteKeeps(p, SetQueue(p.route, q, queue.(install := Some(queue.install.value.(reading := true)))));
    }
    if HydrationTimeout(p, hydration) != p {
      var route := p.route.(hydration := Some(p.route.hydration.value.(armed := false)));
      RouteChangeOk(p, route);
      RouteKeeps(p, route);
      RecoverRouteKeeps(p.(route := route), hydration);
      KeepsChain(p, p.(route := route), HydrationTimeout(p, hydration));
    }
  }

  lemma EndedKeeps(p: Plane, q: nat)
    requires PlaneOk(p) && p.route.Queue(q).install.Some?
    ensures PlaneOk(EndInstall(p, q)) && Keeps(p, EndInstall(p, q)) && Keeps(p, CloseStream(EndInstall(p, q)))
  {
    hide PlaneOk, Keeps, CloseStream;
    var ended := EndInstall(p, q);
    EndInstallOk(p, q);
    RouteKeeps(p, ended.route);
    CloseStreamKeeps(ended);
    KeepsChain(p, ended, CloseStream(ended));
  }

  lemma ReaderFailedKeeps(p: Plane, q: nat)
    requires PlaneOk(p)
    ensures Keeps(p, ReaderFailed(p, q))
  {
    hide PlaneOk, Keeps, RecoverRoute;
    KeepsSelf(p);
    var install := p.route.Queue(q).install;
    if install.Some? && install.value.reading {
      EndedKeeps(p, q);
      if InstallCurrent(p, install.value) {
        RecoverRouteKeeps(EndInstall(p, q), install.value.hydration);
        KeepsChain(p, EndInstall(p, q), RecoverRoute(EndInstall(p, q), install.value.hydration));
      }
    }
  }

  lemma HydrationKeeps(p: Plane, ended: Route, h: Hydration)
    requires p.route.hydration.Some? && ended == p.route.(queues := ended.queues)
    requires h.completed == p.route.hydration.value.completed && h.generation == p.route.hydration.value.generation
    ensures Keeps(p, p.(route := Arm(ended.(hydration := Some(h)))))
  {
    hide Keeps;
    RouteKeeps(p, Arm(ended.(hydration := Some(h))));
  }

  lemma ReaderDoneKeeps(p: Plane, q: nat, progress: Progress)
    requires PlaneOk(p)
    ensures Keeps(p, ReaderDone(p, q, progress))
  {
    hide PlaneOk, Keeps, CloseStream;
    KeepsSelf(p);
    var install := p.route.Queue(q).install;
    if install.Some? && install.value.reading {
      var ended := EndInstall(p, q);
      EndedKeeps(p, q);
      if InstallCurrent(p, install.value) {
        var h := p.route.hydration.value;
        HydrationKeeps(p, ended.route, h);
        HydrationKeeps(p, ended.route, h.(readyReceived := true));
        HydrationKeeps(p, ended.route, h.(decoderFinished := true));
      }
    }
  }

  lemma ArriveKeeps(p: Plane, tag: nat, event: StreamEvent)
    ensures Keeps(p, Arrive(p, tag, event))
  {
    hide Recorded, Held;
  }

  /** After the route opened further, the pump has run. */
  lemma OpenedKeeps(p: Plane, route: Route)
    ensures Keeps(p, PumpPlane(p.(route := route)))
  {
    hide Recorded, Held, PumpPlane;
    PumpPlaneKeeps(p.(route := route));
  }

  lemma FinishKeeps(p: Plane)
    requires PlaneOk(p) && p.life.stream.Some?
    ensures Keeps(p, ReceiveFinish(p, p.life.generation))
  {
    hide PlaneOk, Keeps, CloseStream, PumpPlane, FinishLast;
    KeepsSelf(p);
    HydrationIsThere(p);
    CloseStreamKeeps(p);
    OpenedKeeps(p, FinishedRoute(p.route));
  }

  function FinishedRoute(route: Route): Route {
    if route.hydration.None? then route else
      var h := route.hydration.value;
      route.(hydration := Some(h.(historyIncomplete := h.historyIncomplete || !h.decoderFinished,
                                  completed := true, armed := false, buffered := [], bufferedBytes := 0)),
             delivered := route.delivered + h.buffered,
             segments := FinishLast(route.segments),
             exits := if h.pendingExit.Some? then route.exits + [h.pendingExit.value] else route.exits)
  }

  lemma AttachStateKeeps(p: Plane, tag: nat, state: AttachState)
    requires PlaneOk(p) && !p.life.detached
    ensures Keeps(p, ReceiveAttachState(p, tag, state))
  {
    hide PlaneOk, Keeps, CloseStream, RecoverRoute, PumpPlane;
    KeepsSelf(p);
    CloseStreamKeeps(p);
    if p.route.hydration.Some? { RecoverRouteKeeps(p, p.route.hydration.value.id); }
    OpenedKeeps(p, p.route.(attached := true, acceptedEpoch := Some(0)));
  }

  lemma OtherKeeps(p: Plane, q: nat, tag: nat, item: Item, code: int, ready: bool)
    requires PlaneOk(p) && p.life.stream.Some? && tag == p.life.generation && !p.life.detached
    ensures Keeps(p, ReceiveOutput(p, tag, item)) && Keeps(p, ReceiveExit(p, tag, code))
    ensures Keeps(p, ReceiveHistoryUnavailable(p, tag)) && Keeps(p, BeginInstall(p, q, tag, ready))
  {
    hide PlaneOk, Keeps, CloseStream, RecoverRoute, AdmitToLast, Overflows;
    HydrationIsThere(p);
    var h := p.route.hydration.value;
    CloseStreamKeeps(p);
    RecoverRouteKeeps(p, h.id);
    if ReceiveOutput(p, tag, item) != RecoverRoute(p, h.id) { RouteKeeps(p, ReceiveOutput(p, tag, item).route); }
    RouteKeeps(p, ReceiveExit(p, tag, code).route);
    if h.readyReceived { RouteKeeps(p, ReceiveHistoryUnavailable(p, tag).route); }
    RouteKeeps(p, BeginInstall(p, q, tag, ready).route);
  }

  lemma ResyncKeeps(p: Plane, tag: nat, epoch: nat)
    ensures Keeps(p, ReceiveResync(p, tag, epoch))
  {
    hide Recorded, Held, Keeps;
    RefusedKeeps(p, ReleaseConsent(p.input));
    var q := p.(input := ReleaseConsent(p.input));
    RouteKeeps(q, ReceiveResync(p, tag, epoch).route);
    KeepsChain(p, q, ReceiveResync(p, tag, epoch));
  }

  // ---------------------------------------------------------------------------
  // Settlement and the send chain.
  // ---------------------------------------------------------------------------

  /** Taking another operation out of the window leaves the waiting ones in it. */
  lemma HeldWithout(chain: seq<Job>, inflight: seq<Inflight>, k: nat)
    requires WaitingHeld(chain, inflight) && k < |inflight|
    requires forall j :: 0 <= j < |chain| && chain[j].phase.Waiting? && chain[j].item.entry.op.Resize? ==>
      chain[j].item.operationId != inflight[k].operationId
    ensures WaitingHeld(chain, inflight[..k] + inflight[k + 1..])
  {
    var rest := inflight[..k] + inflight[k + 1..];
    forall j | 0 <= j < |chain| && chain[j].phase.Waiting? && chain[j].item.entry.op.Resize? ensures chain[j].item in rest {
      var m :| 0 <= m < |inflight| && inflight[m] == chain[j].item;
      assert rest[if m < k then m else m - 1] == chain[j].item;
    }
  }

  /** No RESIZE waiting in the chain of generation g carries this id. */
  ghost predicate NotWaiting(chain: seq<Job>, id: nat) {
    forall j :: 0 <= j < |chain| && chain[j].phase.Waiting? && chain[j].item.entry.op.Resize? ==> chain[j].item.operationId != id
  }

  lemma SettleStays(i: Input, gate: Gate, item: Inflight, name: OutcomeName,
                    accepted: Option<nat>, written: Option<nat>, now: nat)
    requires NotWaiting(Of(i.chains, gate.generation), item.operationId)
    ensures Stays(i, Settle(i, gate, item, name, accepted, written, now), gate.generation)
  {
    hide SentOk, WaitingHeld, NotWaiting;
    if Holds(i, item) {
      WithoutStays(i, item, gate.generation);
      PumpStays(Record(i, gate, item, name, accepted, written, now), gate);
    }
  }

  lemma WithoutStays(i: Input, item: Inflight, g: nat)
    requires Holds(i, item) && NotWaiting(Of(i.chains, g), item.operationId)
    ensures Stays(i, Without(i, item), g)
  {
    hide SentOk;
    if Held(i, g) { HeldWithout(Of(i.chains, g), i.inflight, IndexOf(i.inflight, item.operationId)); }
  }

  lemma SettleNotDue(i: Input, gate: Gate, item: Inflight, name: OutcomeName,
                     accepted: Option<nat>, written: Option<nat>, now: nat)
    requires !PumpDue(i, gate)
    ensures !PumpDue(Settle(i, gate, item, name, accepted, written, now), gate)
  {
    if Holds(i, item) { PumpNotDue(Record(i, gate, item, name, accepted, written, now), gate); }
  }

  /** The head leaves its chain, moves on, or both chain and wire stay as they were. */
  lemma HeadStays(i: Input, g: nat, job: Job, generation: nat)
    requires i.Chain(g) != [] && !job.phase.Waiting?
    ensures Stays(i, PopHead(i, g), generation) && Stays(i, SetHead(i, g, job), generation)
  {
    hide SentOk;
    assert forall k :: 0 <= k < |i.Chain(g)[1..]| ==> i.Chain(g)[1..][k] == i.Chain(g)[k + 1];
    assert forall k :: 0 < k < |i.Chain(g)| ==> ([job] + i.Chain(g)[1..])[k] == i.Chain(g)[k];
  }

  ghost predicate SameResizes(i: Input, j: Input) {
    forall h: nat :: Resizes(j.Wire(h)) == Resizes(i.Wire(h))
  }

  /** Offering a frame that is not a RESIZE. */
  lemma OfferStays(i: Input, g: nat, frame: WireFrame, generation: nat)
    requires !frame.item.entry.op.Resize?
    ensures Stays(i, Offer(i, g, frame), generation) && SameResizes(i, Offer(i, g, frame))
  {
    hide WaitingHeld, NoRepeats;
    ResizesStep(i.Wire(g), frame);
    var j := Offer(i, g, frame);
    forall h: nat ensures Resizes(Of(j.wires, h)) == Resizes(Of(i.wires, h)) {
      assert h != g ==> Of(j.wires, h) == Of(i.wires, h);
    }
  }

  /** Stream g is offered these geometries more. */
  ghost predicate MoreResizes(i: Input, j: Input, g: nat, more: seq<Geometry>) {
    forall h: nat :: Resizes(j.Wire(h)) == Resizes(i.Wire(h)) + if h == g then more else []
  }

  lemma OfferMore(i: Input, g: nat, frame: WireFrame)
    requires frame.item.entry.op.Resize?
    ensures MoreResizes(i, Offer(i, g, frame), g, [frame.item.entry.op.geometry])
  {
    ResizesStep(i.Wire(g), frame);
    var j := Offer(i, g, frame);
    assert forall h: nat :: h != g ==> Of(j.wires, h) == Of(i.wires, h);
  }

  lemma StartOtherStays(i: Input, g: nat, item: Inflight, generation: nat)
    requires i.Chain(g) != [] && !item.entry.op.Resize?
    ensures Stays(i, StartSending(i, g, item), generation) && SameResizes(i, StartSending(i, g, item))
  {
    hide Recorded, Held;
    HeadStays(i, g, Job(item, Sending(0)), generation);
    HeadStays(i, g, Job(item, Failed), generation);
    OfferStays(SetHead(i, g, Job(item, Sending(0))), g, WireFrame(item, Data(0)), generation);
  }

  lemma SendStays(i: Input, gate: Gate, g: nat)
    requires StreamOk(i.Chain(g), i.Wire(g), g)
    ensures var j := TerminalInput.SendDone(i, g); Stays(i, j, gate.generation) && SameResizes(i, j)
    ensures var j := TerminalInput.SendFail(i, gate, g); Stays(i, j, gate.generation) && SameResizes(i, j)
    ensures var j := AbortDone(i, g); Stays(i, j, gate.generation) && SameResizes(i, j)
  {
    hide Held, StreamOk, Resizes;
    if i.Chain(g) != [] {
      var item := i.Chain(g)[0].item;
      HeadStays(i, g, Job(item, Failed), gate.generation);
      HeadStays(i, g, Job(item, Aborting), gate.generation);
      if i.Chain(g)[0].phase.Sending? {
        var next := i.Chain(g)[0].phase.index + 1;
        HeadStays(i, g, Job(item, Sending(next)), gate.generation);
        if !item.entry.op.Resize? {
          OfferStays(SetHead(i, g, Job(item, Sending(next))), g, WireFrame(item, Data(next)), gate.generation);
          OfferStays(SetHead(i, g, Job(item, Aborting)), g, WireFrame(item, Abort), gate.generation);
        }
      }
    }
  }

  /** The links after the head carry larger ids. */
  lemma AfterHead(chain: seq<Job>, g: nat)
    requires chain != [] && ChainOk(chain, g)
    ensures NotWaiting(chain[1..], chain[0].item.operationId)
  {
  }

  lemma CatchStays(i: Input, gate: Gate, g: nat)
    requires InputOk(i, gate)
    ensures Stays(i, ChainCatch(i, gate, g), gate.generation)
  {
    hide InputOk, Recorded, Held, Holds;
    if HeadIs(i, g, Failed) {
      var item := i.Chain(g)[0].item;
      HeadStays(i, g, Job(item, Failed), gate.generation);
      HeadLinked(i, gate, g);
      if g == gate.generation {
        AfterHead(i.Chain(g), g);
        SettleStays(PopHead(i, g), gate, item, Cancelled, None, None, 0);
      } else {
        StaleLinkUnheld(i, gate, g);
      }
    }
  }

  // ---------------------------------------------------------------------------
  // A RESIZE starts.
  // ---------------------------------------------------------------------------

  /** A RESIZE of the current attachment starts. */
  predicate StartsResize(i: Input, gate: Gate, g: nat) {
    HeadIs(i, g, Waiting) && g == gate.generation && i.Chain(g)[0].item.entry.op.Resize?
  }

  /** It no longer holds the RESIZE slot: it was answered before it was sent. */
  predicate StaleStart(i: Input, gate: Gate, g: nat) {
    StartsResize(i, gate, g) && i.geometryOperation != Some(i.Chain(g)[0].item.entry.ticket)
  }

  /** The geometry a starting link offers: the latest requested one, if its RESIZE holds the slot, the screen is
      restored and the stream does not have it; the one it was appended with, if it lost the slot. */
  function StartOffers(i: Input, gate: Gate, g: nat): seq<Geometry> {
    if !StartsResize(i, gate, g) then []
    else if StaleStart(i, gate, g) then [i.Chain(g)[0].item.entry.op.geometry]
    else if gate.hydrated && i.desired.Some? && i.sent != i.desired then [i.desired.value]
    else []
  }

  /** The slot is of a RESIZE. */
  lemma SlotIsResize(i: Input, gate: Gate)
    requires InputOk(i, gate) && HeadIs(i, gate.generation, Waiting)
    requires i.geometryOperation == Some(i.Chain(gate.generation)[0].item.entry.ticket)
    ensures i.Chain(gate.generation)[0].item.entry.op.Resize?
  {
    hide WindowOk, BytesOk, ChainsOk, OrderOk, FenceOk, UnsafeOk;
  }

  /** A waiting RESIZE still in flight holds the slot. */
  lemma HeldInSlot(i: Input, gate: Gate, g: nat)
    requires InputOk(i, gate) && Held(i, gate.generation)
    ensures !StaleStart(i, gate, g)
  {
    hide WindowOk, BytesOk, ChainsOk, OrderOk, FenceOk, UnsafeOk;
    if StartsResize(i, gate, g) {
      var item := i.Chain(g)[0].item;
      var k :| 0 <= k < |i.inflight| && i.inflight[k] == item;
    }
  }

  lemma StartGeometryStays(i: Input, gate: Gate, g: nat)
    requires StartsResize(i, gate, g) && !StaleStart(i, gate, g) && ChainOk(i.Chain(g), g)
    ensures var j := StartGeometry(i, gate, g, i.Chain(g)[0].item);
      && MoreResizes(i, j, g, StartOffers(i, gate, g)) && (Held(i, g) ==> Held(j, g))
      && j.sent == if StartOffers(i, gate, g) != [] then i.desired else i.sent
  {
    hide WaitingHeld, ChainOk, Resizes;
    var item := i.Chain(g)[0].item;
    HeadStays(i, g, Job(item, Failed), g);
    if StartOffers(i, gate, g) != [] {
      var late := item.(entry := item.entry.(op := Resize(i.desired.value)));
      var moved := SetHead(i, g, Job(late, Sending(0)));
      HeadStays(i, g, Job(late, Sending(0)), g);
      OfferMore(moved.(sent := i.desired), g, WireFrame(late, Data(0)));
    } else {
      var popped := PopHead(i, g);
      AfterHead(i.Chain(g), g);
      if Holds(popped, item) { WithoutStays(popped, item, g); }
      ReleasedStays(popped, item, g);
      PumpStays(Release(popped, item), gate);
      PumpKeepsLogs(Release(popped, item), gate);
    }
  }

  lemma ReleasedStays(i: Input, item: Inflight, g: nat)
    requires Holds(i, item) ==> Stays(i, Without(i, item), g)
    ensures Stays(i, Release(i, item), g)
  {
  }

  /** What a starting link offers, and what it records. */
  lemma RunStays(i: Input, gate: Gate, g: nat)
    requires InputOk(i, gate) && (gate.stream.Some? ==> gate.live && gate.stream == Some(gate.generation))
    ensures var j := ChainRun(i, gate, g);
      && MoreResizes(i, j, g, StartOffers(i, gate, g))
      && j.sent == (if StartOffers(i, gate, g) != [] && !StaleStart(i, gate, g) then i.desired else i.sent)
      && (Held(i, gate.generation) ==> Held(j, gate.generation))
  {
    hide InputOk, WaitingHeld, Holds, Resizes;
    if HeadIs(i, g, Waiting) {
      var item := i.Chain(g)[0].item;
      HeadLinked(i, gate, g);
      HeadStays(i, g, Job(item, Failed), gate.generation);
      if g != gate.generation {
        StaleLinkUnheld(i, gate, g);
      } else {
        ChainMeansOpen(i, gate);
        if i.geometryOperation == Some(item.entry.ticket) { SlotIsResize(i, gate); }
        if !item.entry.op.Resize? {
          StartOtherStays(i, g, item, g);
        } else if StaleStart(i, gate, g) {
          if Held(i, g) { HeldInSlot(i, gate, g); }
          HeadStays(i, g, Job(item, Sending(0)), g);
          var moved := SetHead(i, g, Job(item, Sending(0)));
          OfferMore(moved, g, WireFrame(item, Data(0)));
        } else {
          StartGeometryStays(i, gate, g);
        }
      }
    }
  }

  lemma ChainNotDue(i: Input, gate: Gate, g: nat)
    requires !PumpDue(i, gate)
    ensures !PumpDue(ChainRun(i, gate, g), gate) && !PumpDue(ChainCatch(i, gate, g), gate)
    ensures !PumpDue(TerminalInput.SendDone(i, g), gate) && !PumpDue(TerminalInput.SendFail(i, gate, g), gate)
    ensures !PumpDue(AbortDone(i, g), gate)
  {
    hide Settle, Pump, Release;
    if i.Chain(g) != [] {
      var item := i.Chain(g)[0].item;
      SettleNotDue(PopHead(i, g), gate, item, Cancelled, None, None, 0);
      PumpNotDue(Release(PopHead(i, g), item), gate);
    }
  }

  // ---------------------------------------------------------------------------
  // Every event.
  // ---------------------------------------------------------------------------

  /** The host answers a RESIZE only after it was sent. */
  ghost predicate Prompt(p: Plane, e: Event) {
    e.EvDispatch? && Dispatches(p, e.queue) && ResultPasses(p, p.route.Queue(e.queue).items[0]) ==>
      NotWaiting(p.input.Chain(p.life.generation), p.route.Queue(e.queue).items[0].event.body.operationId)
  }

  lemma ResultKeeps(p: Plane, body: Body, now: nat)
    requires body.InputResult? && NotWaiting(p.input.Chain(p.life.generation), body.operationId)
    ensures Keeps(p, HandleBody(p, 0, 0, 0, body, now))
  {
    hide Recorded, Held, Settle, NotWaiting;
    var gate := GateOf(p.life, p.route);
    var k := IndexOf(p.input.inflight, body.operationId);
    if k < |p.input.inflight| {
      var item := p.input.inflight[k];
      ResultWires(p.input, gate, body, now);
      if !Due(p) { SettleNotDue(p.input, gate, item, body.name, body.accepted, body.written, now); }
      SettleStays(p.input, gate, item, body.name, body.accepted, body.written, now);
    }
  }

  lemma ResultWires(i: Input, gate: Gate, body: Body, now: nat)
    requires body.InputResult?
    ensures SettleResult(i, gate, body.operationId, body.name, body.accepted, body.written, now).wires == i.wires
    ensures SettleResult(i, gate, body.operationId, body.name, body.accepted, body.written, now).sent == i.sent
    ensures ChainsExtend(i, SettleResult(i, gate, body.operationId, body.name, body.accepted, body.written, now))
    ensures Carried(i) ==> Carried(SettleResult(i, gate, body.operationId, body.name, body.accepted, body.written, now))
    ensures !PumpDue(i, gate) ==>
      !PumpDue(SettleResult(i, gate, body.operationId, body.name, body.accepted, body.written, now), gate)
  {
    hide Pump;
    var k := IndexOf(i.inflight, body.operationId);
    if k < |i.inflight| && Holds(i, i.inflight[k]) {
      var j := Record(i, gate, i.inflight[k], body.name, body.accepted, body.written, now);
      PumpKeepsLogs(j, gate);
      PumpNotDue(j, gate);
      PumpExtends(j, gate);
      if Carried(i) {
        FewerCarried(i, j);
        PumpCarried(j, gate);
      }
    }
  }

  lemma BodyKeeps(p: Plane, q: nat, serial: nat, tag: nat, body: Body, now: nat)
    requires PlaneOk(p) && p.life.stream.Some? && tag == p.life.generation && !p.life.detached
    ensures KeepsIf(p, HandleBody(p, q, serial, tag, body, now),
      body.InputResult? ==> NotWaiting(p.input.Chain(p.life.generation), body.operationId))
  {
    hide PlaneOk, Due, Recorded, Held, ReceiveOutput, ReceiveExit, ReceiveHistoryUnavailable, ReceiveResync,
         BeginInstall, ReceiveFinish, ReceiveAttachState, SettleResult, NotWaiting;
    match body {
      case SnapshotFinish => FinishKeeps(p);
      case AttachStateFrame(state) => AttachStateKeeps(p, tag, state);
      case InputResult(_, _, _, _) => EarlyResultKeeps(p, q, serial, tag, body, now);
      case Output(payload) => OtherKeeps(p, q, tag, Item(serial, payload), 0, true);
      case ProcessExit(code) => OtherKeeps(p, q, tag, Item(0, []), code, true);
      case RouteResync(_, to) => ResyncKeeps(p, tag, to);
      case SnapshotReady(_) => OtherKeeps(p, q, tag, Item(0, []), 0, true);
      case SnapshotHistory(_) => OtherKeeps(p, q, tag, Item(0, []), 0, false);
      case HistoryUnavailable => OtherKeeps(p, q, tag, Item(0, []), 0, false);
      case Undecodable =>
      case Modes =>
    }
  }

  lemma EarlyResultKeeps(p: Plane, q: nat, serial: nat, tag: nat, body: Body, now: nat)
    requires body.InputResult?
    ensures KeepsIf(p, HandleBody(p, q, serial, tag, body, now), NotWaiting(p.input.Chain(p.life.generation), body.operationId))
  {
    hide SentOk, Held, SettleResult, NotWaiting;
    ResultWires(p.input, GateOf(p.life, p.route), body, now);
    if NotWaiting(p.input.Chain(p.life.generation), body.operationId) { ResultKeeps(p, body, now); }
  }

  lemma KeepsIfVia(p: Plane, via: Plane, q: Plane, tracked: bool)
    requires Keeps(p, via) && KeepsIf(via, q, tracked)
    ensures KeepsIf(p, q, tracked)
  {
    hide Due, Recorded, Held;
  }

  lemma ArrivalKeeps(p: Plane, q: nat, a: Arrival, now: nat)
    requires PlaneOk(p) && (a.tag == p.life.generation ==> p.life.stream.Some?)
    ensures KeepsIf(p, HandleArrival(p, q, a, now),
      ResultPasses(p, a) ==> NotWaiting(p.input.Chain(p.life.generation), a.event.body.operationId))
  {
    hide PlaneOk, CloseStream, Reset, HandleBody, NotWaiting, Due, Recorded, Held;
    if IsCurrent(p.life, a.tag) {
      CloseStreamKeeps(p);
      ResetKeeps(p);
      if a.event.Frame? {
        var fenced := p.(route := p.route.(routeGeneration := Some(a.event.generation)));
        FenceMoved(p, a.event.generation);
        RouteKeeps(p, fenced.route);
        BodyKeeps(fenced, q, a.serial, a.tag, a.event.body, now);
        KeepsIfVia(p, fenced, HandleBody(fenced, q, a.serial, a.tag, a.event.body, now),
          a.event.body.InputResult? ==> NotWaiting(p.input.Chain(p.life.generation), a.event.body.operationId));
      }
    }
  }

  lemma DispatchKeeps(p: Plane, q: nat, now: nat)
    requires PlaneOk(p)
    ensures KeepsIf(p, Dispatch(p, q, now), Prompt(p, EvDispatch(q, now)))
  {
    hide PlaneOk, HandleArrival, NotWaiting, Due, Recorded, Held, Admitted;
    if Dispatches(p, q) {
      var queue := p.route.Queue(q);
      assert queue == QueueOf(p.route.queues, q);
      DispatchHead(p, q);
      var popped := p.(route := SetQueue(p.route, q, queue.(items := queue.items[1..])));
      RouteKeeps(p, popped.route);
      ArrivalKeeps(popped, q, queue.items[0], now);
      KeepsIfVia(p, popped, Dispatch(p, q, now), Prompt(p, EvDispatch(q, now)));
    }
  }

  lemma OthersKeepOnUser(p: Plane, e: Event)
    requires PlaneOk(p) && e.User()
    ensures KeepsIf(p, OnUser(p, e), Prompt(p, e))
  {
    hide PlaneOk, Due, Resizes, Held, Prompt, Subscribe, Unsubscribe, SendInput, ResizeTo, WritePaste, Confirm,
         CancelPaste;
    KeepsSelf(p);
    match e {
      case EvSubscribe(l) => LifecycleKeeps(p, l);
      case EvUnsubscribe(l) => LifecycleKeeps(p, l);
      case EvBindReader => RouteKeeps(p, p.route.(readerBound := true));
      case EvSendInput(op, n) => UserKeeps(p, op, n, Geometry(0, 0, 0, 0), 0, []);
      case EvResize(geometry) => UserKeeps(p, Mouse, 0, geometry, 0, []);
      case EvPaste(units, data) => UserKeeps(p, Mouse, 0, Geometry(0, 0, 0, 0), units, data);
      case EvConfirm(consent, now) => ConsentKeeps(p, consent, now);
      case EvCancel(consent) => ConsentKeeps(p, consent, 0);
      case EvConsentExpires(consent) => ConsentKeeps(p, consent, 0);
    }
  }

  lemma OthersKeepOnDelivery(p: Plane, e: Event)
    requires PlaneOk(p) && e.Delivery()
    ensures KeepsIf(p, OnDelivery(p, e), Prompt(p, e))
  {
    hide PlaneOk, Due, Resizes, Held, Prompt, Arrive, Dispatch, StartInstall, ReaderDone, ReaderFailed,
         HydrationTimeout;
    KeepsSelf(p);
    match e {
      case EvArrive(tag, event) => ArriveKeeps(p, tag, event);
      case EvDispatch(q, now) => DispatchKeeps(p, q, now);
      case EvStartInstall(q) => InstallKeeps(p, q, 0);
      case EvReaderDone(q, progress) => ReaderDoneKeeps(p, q, progress);
      case EvReaderFailed(q) => ReaderFailedKeeps(p, q);
      case EvHydrationTimeout(h) => InstallKeeps(p, 0, h);
    }
  }

  lemma OthersKeepOnLifecycle(p: Plane, e: Event)
    requires PlaneOk(p) && !e.User() && !e.Chain() && !e.Delivery()
    ensures KeepsIf(p, OnLifecycle(p, e), Prompt(p, e))
  {
    hide PlaneOk, Due, Resizes, Held, Prompt, AttachResume, MarkAttachSent, AttachReady, AttachRejected,
         AttachCleared, TransportLost, TransportRecovered, RecoveryContinues, DetachPlane;
    KeepsSelf(p);
    match e {
      case EvAttachResume(g) => AttachResumeKeeps(p, g);
      case EvAttachSent(g) => AttachProgressKeeps(p, g, None);
      case EvAttachReady(g, reserved) => AttachProgressKeeps(p, g, reserved);
      case EvAttachRejected(g) => AttachProgressKeeps(p, g, None);
      case EvAttachCleared(g) => AttachProgressKeeps(p, g, None);
      case EvTransportLost => LifecycleKeeps(p, 0);
      case EvRouteChannelClosed(_) => LifecycleKeeps(p, 0);
      case EvTransportRecovered => RecoveryKeeps(p);
      case EvRecoveryContinues => RecoveryKeeps(p);
      case EvDetach => DetachKeeps(p);
    }
  }

  lemma OthersKeep(p: Plane, e: Event)
    requires PlaneOk(p) && !e.Chain()
    ensures KeepsIf(p, Step(p, e), Prompt(p, e))
  {
    hide PlaneOk, KeepsIf, OnUser, OnChain, OnDelivery, OnLifecycle;
    if e.User() {
      OthersKeepOnUser(p, e);
    } else if e.Delivery() {
      OthersKeepOnDelivery(p, e);
    } else {
      OthersKeepOnLifecycle(p, e);
    }
  }

  lemma GateAligned(p: Plane)
    requires PlaneOk(p)
    ensures var gate := GateOf(p.life, p.route);
      InputOk(p.input, gate) && (gate.stream.Some? ==> gate.live && gate.stream == Some(gate.generation))
  {
    hide InputOk, QueuesOk, SerialOk, OutputOk, DetachOk, ReattachOk, OpeningsOk;
  }

  /** What event e offers to stream h in the way of geometry. */
  function OfferedBy(p: Plane, e: Event, h: nat): seq<Geometry> {
    if e.EvChainRun? && e.generation == h then StartOffers(p.input, GateOf(p.life, p.route), h) else []
  }

  /** Along any event a stream is offered a geometry exactly when a RESIZE starts on the current attachment: the
      latest requested one, with the screen restored and the stream not having it; or, if it was answered before
      it was sent, the one it was appended with. */
  lemma ResizesOffered(p: Plane, e: Event, h: nat)
    requires PlaneOk(p)
    ensures Resizes(Step(p, e).input.Wire(h)) == Resizes(p.input.Wire(h)) + OfferedBy(p, e, h)
  {
    hide PlaneOk, Recorded, Held, Due, Resizes, Step, StartOffers;
    if e.Chain() {
      ChainOffers(p, e, h);
    } else {
      OthersKeep(p, e);
    }
  }

  function ChainInput(i: Input, gate: Gate, e: Event): Input {
    match e
    case EvChainRun(g) => ChainRun(i, gate, g)
    case EvSendDone(g) => TerminalInput.SendDone(i, g)
    case EvSendFail(g) => TerminalInput.SendFail(i, gate, g)
    case EvAbortDone(g) => AbortDone(i, g)
    case EvChainCatch(g) => ChainCatch(i, gate, g)
    case _ => i
  }

  lemma ChainStep(p: Plane, e: Event)
    requires e.Chain()
    ensures Step(p, e) == p.(input := ChainInput(p.input, GateOf(p.life, p.route), e))
  {
    hide ChainRun, TerminalInput.SendDone, TerminalInput.SendFail, AbortDone, ChainCatch;
  }

  lemma ChainOffers(p: Plane, e: Event, h: nat)
    requires PlaneOk(p) && e.Chain()
    ensures Resizes(Step(p, e).input.Wire(h)) == Resizes(p.input.Wire(h)) + OfferedBy(p, e, h)
  {
    hide PlaneOk, InputOk, Stays, ChainRun, TerminalInput.SendDone, TerminalInput.SendFail, AbortDone, ChainCatch,
         Resizes, StreamOk, StartOffers, MoreResizes, SameResizes, Step;
    var gate := GateOf(p.life, p.route);
    ChainStep(p, e);
    GateAligned(p);
    if e.EvChainRun? {
      RunStays(p.input, gate, e.generation);
      MoreAt(p.input, ChainRun(p.input, gate, e.generation), e.generation, StartOffers(p.input, gate, e.generation), h);
    } else {
      HeadLinked(p.input, gate, e.generation);
      SendStays(p.input, gate, e.generation);
      CatchWires(p.input, gate, e.generation);
      if SameResizes(p.input, Step(p, e).input) { SameAt(p.input, Step(p, e).input, h); }
    }
  }

  lemma MoreAt(i: Input, j: Input, g: nat, more: seq<Geometry>, h: nat)
    requires MoreResizes(i, j, g, more)
    ensures Resizes(j.Wire(h)) == Resizes(i.Wire(h)) + if h == g then more else []
  {
  }

  lemma SameAt(i: Input, j: Input, h: nat)
    requires SameResizes(i, j)
    ensures Resizes(j.Wire(h)) == Resizes(i.Wire(h))
  {
  }

  lemma CatchWires(i: Input, gate: Gate, g: nat)
    ensures ChainCatch(i, gate, g).wires == i.wires
  {
    hide Pump;
    if HeadIs(i, g, Failed) && Holds(PopHead(i, g), i.Chain(g)[0].item) {
      PumpKeepsLogs(Record(PopHead(i, g), gate, i.Chain(g)[0].item, Cancelled, None, None, 0), gate);
    }
  }

  /** A RESIZE that lost the slot starts. */
  predicate StartsStale(p: Plane, e: Event) { e.EvChainRun? && StaleStart(p.input, GateOf(p.life, p.route), e.generation) }

  lemma ChainKeeps(p: Plane, e: Event)
    requires PlaneOk(p) && e.Chain()
    ensures !Due(p) ==> !Due(Step(p, e))
    ensures Step(p, e).life == p.life
    ensures Step(p, e).input.sent == if OfferedBy(p, e, p.life.generation) != [] && !StartsStale(p, e) then p.input.desired else p.input.sent
    ensures Held(p.input, p.life.generation) ==> Held(Step(p, e).input, p.life.generation)
  {
    hide PlaneOk, InputOk, Held, ChainRun, TerminalInput.SendDone, TerminalInput.SendFail, AbortDone,
         ChainCatch, PumpDue, StaleStart, MoreResizes, SameResizes, StreamOk, Step;
    var gate := GateOf(p.life, p.route);
    ChainStep(p, e);
    GateAligned(p);
    if !Due(p) { ChainNotDue(p.input, gate, e.generation); }
    if e.EvChainRun? {
      RunStays(p.input, gate, e.generation);
    } else {
      HeadLinked(p.input, gate, e.generation);
      SendStays(p.input, gate, e.generation);
      CatchStays(p.input, gate, e.generation);
    }
  }

  /** The record of one event: what a RESIZE that holds its slot offers; or what it was; or none, for a new stream. */
  lemma RecordStep(p: Plane, e: Event)
    requires PlaneOk(p) && Seen(p.input, p.life.generation)
    ensures var q, offered := Step(p, e), OfferedBy(p, e, p.life.generation);
      if offered == [] then SameRecord(p.input, p.life.generation, q.input, q.life.generation)
      else q.life == p.life && q.input.sent == if StartsStale(p, e) then p.input.sent else Some(offered[0])
  {
    hide PlaneOk, Due, Held, Prompt, Resizes, Step;
    if e.Chain() { ChainKeeps(p, e); } else { OthersKeep(p, e); }
  }

  /** A true record stays true along any event but one: a RESIZE that lost the slot starts. */
  lemma RecordStepIff(p: Plane, e: Event)
    requires PlaneOk(p) && Recorded(p.input, p.life.generation)
    ensures Recorded(Step(p, e).input, Step(p, e).life.generation) <==> !StartsStale(p, e)
  {
    hide PlaneOk, Due, Held, Prompt, Resizes, Step, NoRepeats, StaleStart;
    var q, g := Step(p, e), p.life.generation;
    RecordStep(p, e);
    forall h: nat ensures Resizes(Of(q.input.wires, h)) == Resizes(Of(p.input.wires, h)) + OfferedBy(p, e, h) {
      ResizesOffered(p, e, h);
    }
    if StartsStale(p, e) { StaleOffers(p, e); }
    if OfferedBy(p, e, g) != [] {
      OneOffer(p, e, g);
      OneMore(Resizes(Of(p.input.wires, g)), OfferedBy(p, e, g)[0]);
      forall h: nat | h != g ensures Resizes(Of(q.input.wires, h)) == Resizes(Of(p.input.wires, h)) {
        if OfferedBy(p, e, h) != [] { OneOffer(p, e, h); }
      }
    } else {
      assert forall h: nat :: NoRepeats(Resizes(Of(p.input.wires, h)));
      forall h: nat ensures OfferedBy(p, e, h) == [] && Resizes(Of(q.input.wires, h)) == Resizes(Of(p.input.wires, h)) {
        if OfferedBy(p, e, h) != [] { OneOffer(p, e, h); }
      }
    }
  }

  lemma StaleOffers(p: Plane, e: Event)
    requires StartsStale(p, e)
    ensures OfferedBy(p, e, p.life.generation) != []
  {
  }

  /** An event offers at most one geometry, and only the present stream; one that holds its slot, a new one. */
  lemma OneOffer(p: Plane, e: Event, h: nat)
    requires OfferedBy(p, e, h) != []
    ensures h == p.life.generation && OfferedBy(p, e, h) == [OfferedBy(p, e, h)[0]]
    ensures !StartsStale(p, e) ==> Some(OfferedBy(p, e, h)[0]) == p.input.desired && p.input.sent != p.input.desired
  {
  }

  /** One more geometry repeats none exactly when the last one was different. */
  lemma OneMore(sizes: seq<Geometry>, size: Geometry)
    ensures LastOf(sizes + [size]) == Some(size)
    ensures NoRepeats(sizes) ==> (NoRepeats(sizes + [size]) <==> LastOf(sizes) != Some(size))
  {
    var more := sizes + [size];
    if sizes != [] { assert more[|sizes|] == size && more[|sizes| - 1] == sizes[|sizes| - 1]; }
  }

  lemma StepGeometry(p: Plane, e: Event)
    requires PlaneOk(p)
    ensures !Due(p) ==> !Due(Step(p, e))
    ensures Held(p.input, p.life.generation) && Prompt(p, e) ==> Held(Step(p, e).input, Step(p, e).life.generation)
  {
    hide PlaneOk, Due, Held, Prompt, Resizes, StaleStart;
    if e.Chain() { ChainKeeps(p, e); } else { OthersKeep(p, e); }
  }

  // ---------------------------------------------------------------------------
  // Every run.
  // ---------------------------------------------------------------------------

  /** In no reachable state is anything left due: with the route attached and room in the window, no admitted
      operation waits in the queue; and with the screen hydrated and no RESIZE outstanding, the geometry recorded
      as sent is the latest requested. */
  lemma {:induction false} NeverDue(fixedSubscription: bool, events: seq<Event>)
    ensures !Due(Run(Initial(fixedSubscription), events))
    decreases |events|
  {
    hide PlaneOk, Step, PumpDue;
    if events == [] {
      InitialNotDue(fixedSubscription);
    } else {
      NeverDue(fixedSubscription, events[..|events| - 1]);
      RunOk(fixedSubscription, events[..|events| - 1]);
      StepGeometry(Run(Initial(fixedSubscription), events[..|events| - 1]), events[|events| - 1]);
    }
  }

  lemma InitialNotDue(fixedSubscription: bool)
    ensures !Due(Initial(fixedSubscription))
    ensures Recorded(Initial(fixedSubscription).input, Initial(fixedSubscription).life.generation)
    ensures Held(Initial(fixedSubscription).input, Initial(fixedSubscription).life.generation)
  {
    assert forall g: nat :: Of<WireFrame>(map[], g) == [];
  }

  ghost predicate RecordedAfter(fixedSubscription: bool, events: seq<Event>, n: nat)
    requires n <= |events|
  {
    var p := Run(Initial(fixedSubscription), events[..n]);
    Recorded(p.input, p.life.generation)
  }

  predicate StaleAt(fixedSubscription: bool, events: seq<Event>, n: nat)
    requires n < |events|
  {
    StartsStale(Run(Initial(fixedSubscription), events[..n]), events[n])
  }

  lemma NextRun(fixedSubscription: bool, events: seq<Event>, n: nat)
    requires n < |events|
    ensures Run(Initial(fixedSubscription), events[..n + 1]) == Step(Run(Initial(fixedSubscription), events[..n]), events[n])
  {
    hide Step;
    assert events[..n + 1][..n] == events[..n];
  }

  lemma RecordedNextIff(fixedSubscription: bool, events: seq<Event>, n: nat)
    requires n < |events| && RecordedAfter(fixedSubscription, events, n)
    ensures RecordedAfter(fixedSubscription, events, n + 1) <==> !StaleAt(fixedSubscription, events, n)
  {
    hide Step, Run, Recorded, StartsStale, PlaneOk;
    NextRun(fixedSubscription, events, n);
    RunOk(fixedSubscription, events[..n]);
    RecordStepIff(Run(Initial(fixedSubscription), events[..n]), events[n]);
  }

  lemma {:induction false} RecordedUpTo(fixedSubscription: bool, events: seq<Event>, n: nat)
    requires n <= |events| && forall m: nat :: m < n ==> !StaleAt(fixedSubscription, events, m)
    ensures RecordedAfter(fixedSubscription, events, n)
  {
    hide Recorded, StaleAt;
    if n == 0 {
      InitialNotDue(fixedSubscription);
    } else {
      RecordedUpTo(fixedSubscription, events, n - 1);
      RecordedNextIff(fixedSubscription, events, n - 1);
    }
  }

  /** In every state of a run the record of what was sent is what the stream was offered last, and no stream was
      offered a geometry twice in a row, if and only if every RESIZE that started held the slot. */
  lemma RecordTrueIff(fixedSubscription: bool, events: seq<Event>)
    ensures (forall n: nat :: n <= |events| ==> RecordedAfter(fixedSubscription, events, n))
       <==> (forall n: nat :: n < |events| ==> !StaleAt(fixedSubscription, events, n))
  {
    hide RecordedAfter, StaleAt;
    if forall n: nat :: n < |events| ==> !StaleAt(fixedSubscription, events, n) {
      forall n: nat | n <= |events| ensures RecordedAfter(fixedSubscription, events, n) {
        RecordedUpTo(fixedSubscription, events, n);
      }
    }
    if forall n: nat :: n <= |events| ==> RecordedAfter(fixedSubscription, events, n) {
      forall n: nat | n < |events| ensures !StaleAt(fixedSubscription, events, n) {
        assert RecordedAfter(fixedSubscription, events, n) && RecordedAfter(fixedSubscription, events, n + 1);
        RecordedNextIff(fixedSubscription, events, n);
      }
    }
  }

  /** The last event of a run that offered stream h a geometry. */
  function LastOffer(fixedSubscription: bool, events: seq<Event>, h: nat): (n: Option<nat>)
    ensures n.Some? ==> n.value < |events|
    decreases |events|
  {
    if events == [] then None
    else
      var front, last := events[..|events| - 1], events[|events| - 1];
      if OfferedBy(Run(Initial(fixedSubscription), front), last, h) != [] then Some(|front|)
      else LastOffer(fixedSubscription, front, h)
  }

  /** A RESIZE that lost the slot starts, with another geometry than the one recorded as sent. */
  predicate Misleads(p: Plane, e: Event) {
    StartsStale(p, e) && p.input.sent != Some(p.input.Chain(e.generation)[0].item.entry.op.geometry)
  }

  /** The last event that offered stream h a geometry did not mislead; there was one. */
  predicate LastOfferTrue(fixedSubscription: bool, events: seq<Event>, h: nat) {
    var n := LastOffer(fixedSubscription, events, h);
    n.Some? && !Misleads(Run(Initial(fixedSubscription), events[..n.value]), events[n.value])
  }

  /** A stream never offered a geometry. */
  lemma {:induction false} NeverOffered(fixedSubscription: bool, events: seq<Event>, h: nat)
    ensures LastOffer(fixedSubscription, events, h).None? <==>
      Resizes(Run(Initial(fixedSubscription), events).input.Wire(h)) == []
    decreases |events|
  {
    hide PlaneOk, Step, OfferedBy;
    if events != [] {
      var front, last := events[..|events| - 1], events[|events| - 1];
      NeverOffered(fixedSubscription, front, h);
      RunOk(fixedSubscription, front);
      ResizesOffered(Run(Initial(fixedSubscription), front), last, h);
    }
  }

  /** The record after one event that offers the present stream a geometry. */
  lemma RecordMoves(p: Plane, e: Event)
    requires PlaneOk(p) && Seen(p.input, p.life.generation) && OfferedBy(p, e, p.life.generation) != []
    ensures var q := Step(p, e); var sizes := Resizes(q.input.Wire(q.life.generation));
      q.life == p.life && sizes != [] && (LastOf(sizes) == q.input.sent <==> !Misleads(p, e))
  {
    hide PlaneOk, Step, Resizes, Seen;
    var g := p.life.generation;
    RecordStep(p, e);
    ResizesOffered(p, e, g);
    OneOffer(p, e, g);
    OneMore(Resizes(p.input.Wire(g)), OfferedBy(p, e, g)[0]);
  }

  lemma StillLast(fixedSubscription: bool, events: seq<Event>, h: nat)
    requires events != [] && OfferedBy(Run(Initial(fixedSubscription), events[..|events| - 1]), events[|events| - 1], h) == []
    ensures LastOfferTrue(fixedSubscription, events, h) <==> LastOfferTrue(fixedSubscription, events[..|events| - 1], h)
  {
    hide OfferedBy, Misleads, Run;
    var n := LastOffer(fixedSubscription, events, h);
    if n.Some? { assert events[..|events| - 1][..n.value] == events[..n.value]; }
  }

  /** After any run, if the present stream was offered any geometry, the last one is the one recorded as sent
      if and only if the event that offered it did not mislead; if it was offered none, none is recorded. */
  lemma {:induction false} RecordedLastIff(fixedSubscription: bool, events: seq<Event>)
    ensures var p := Run(Initial(fixedSubscription), events);
      var sizes := Resizes(p.input.Wire(p.life.generation));
      && Seen(p.input, p.life.generation)
      && (sizes != [] ==> (LastOf(sizes) == p.input.sent <==> LastOfferTrue(fixedSubscription, events, p.life.generation)))
    decreases |events|
  {
    hide PlaneOk, Step, Resizes, OfferedBy, Misleads, LastOf;
    if events == [] {
      NeverOffered(fixedSubscription, events, Initial(fixedSubscription).life.generation);
    } else {
      var front, last := events[..|events| - 1], events[|events| - 1];
      var p, q := Run(Initial(fixedSubscription), front), Run(Initial(fixedSubscription), events);
      RecordedLastIff(fixedSubscription, front);
      RunOk(fixedSubscription, front);
      RecordStep(p, last);
      if OfferedBy(p, last, p.life.generation) != [] {
        RecordMoves(p, last);
      } else if q.life.generation == p.life.generation {
        ResizesOffered(p, last, p.life.generation);
        StillLast(fixedSubscription, events, p.life.generation);
        assert Resizes(q.input.Wire(q.life.generation)) == Resizes(p.input.Wire(p.life.generation));
      }
    }
  }

  /** Attached and hydrated, with room in the window and no RESIZE outstanding: nothing holds a RESIZE back. */
  predicate Rests(p: Plane) {
    && GateOf(p.life, p.route).Open() && ScreenHydrated(p.life, p.route)
    && p.input.geometryOperation.None? && |p.input.inflight| < MAX_INFLIGHT_INPUT_OPERATIONS && p.input.desired.Some?
  }

  /** Latest wins, exactly: in such a state, after any run, the last geometry the stream was offered is the
      latest requested if and only if the event that offered it did not mislead: its RESIZE held the slot, or
      had the geometry that was recorded as sent. */
  lemma LatestWins(fixedSubscription: bool, events: seq<Event>)
    requires Rests(Run(Initial(fixedSubscription), events))
    ensures var p := Run(Initial(fixedSubscription), events);
      LastOf(Resizes(p.input.Wire(p.life.generation))) == p.input.desired <==>
      LastOfferTrue(fixedSubscription, events, p.life.generation)
  {
    hide Step, Run, Resizes, LastOfferTrue, LastOffer;
    RecordedLastIff(fixedSubscription, events);
    NeverDue(fixedSubscription, events);
  }

  /** When every RESIZE that started held the slot, no stream is offered a geometry twice in a row, and the last
      one offered is the latest requested. */
  lemma HeldStartsSuffice(fixedSubscription: bool, events: seq<Event>, h: nat)
    requires forall n: nat :: n < |events| ==> !StaleAt(fixedSubscription, events, n)
    ensures var p := Run(Initial(fixedSubscription), events);
      && NoRepeats(Resizes(p.input.Wire(h)))
      && (Rests(p) ==> LastOf(Resizes(p.input.Wire(p.life.generation))) == p.input.desired)
  {
    hide Step, Resizes, LastOf, NoRepeats, StaleAt;
    RecordedUpTo(fixedSubscription, events, |events|);
    NeverDue(fixedSubscription, events);
    assert events[..|events|] == events;
    var p := Run(Initial(fixedSubscription), events);
    assert NoRepeats(Resizes(Of(p.input.wires, h)));
  }

  ghost predicate AllPrompt(p: Plane, events: seq<Event>)
    decreases |events|
  {
    events != [] ==>
      && AllPrompt(p, events[..|events| - 1])
      && Prompt(Run(p, events[..|events| - 1]), events[|events| - 1])
  }

  lemma {:induction false} PromptHeld(fixedSubscription: bool, events: seq<Event>)
    requires AllPrompt(Initial(fixedSubscription), events)
    ensures var p := Run(Initial(fixedSubscription), events); Held(p.input, p.life.generation)
    decreases |events|
  {
    hide PlaneOk, Step, Held, Prompt;
    if events == [] {
      InitialNotDue(fixedSubscription);
    } else {
      PromptHeld(fixedSubscription, events[..|events| - 1]);
      RunOk(fixedSubscription, events[..|events| - 1]);
      StepGeometry(Run(Initial(fixedSubscription), events[..|events| - 1]), events[|events| - 1]);
    }
  }

  lemma {:induction false} PromptFront(p: Plane, events: seq<Event>, n: nat)
    requires n <= |events| && AllPrompt(p, events)
    ensures AllPrompt(p, events[..n])
    decreases |events|
  {
    hide Prompt, Run;
    if n == |events| {
      assert events[..n] == events;
    } else {
      PromptFront(p, events[..|events| - 1], n);
      assert events[..|events| - 1][..n] == events[..n];
    }
  }

  /** A host that answers no RESIZE before it was sent suffices. */
  lemma PromptSuffices(fixedSubscription: bool, events: seq<Event>, n: nat)
    requires AllPrompt(Initial(fixedSubscription), events) && n < |events|
    ensures !StaleAt(fixedSubscription, events, n)
  {
    hide Run, AllPrompt, PlaneOk, InputOk, Held, StaleStart;
    PromptFront(Initial(fixedSubscription), events, n);
    PromptHeld(fixedSubscription, events[..n]);
    RunOk(fixedSubscription, events[..n]);
    var p := Run(Initial(fixedSubscription), events[..n]);
    GateAligned(p);
    if events[n].EvChainRun? { HeldInSlot(p.input, GateOf(p.life, p.route), events[n].generation); }
  }
}
