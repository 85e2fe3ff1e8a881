/** Exactly which frames an event offers to a stream, and over every run: an operation that has begun stops before
    its last frame only where the stream rejected one, and a paste that stops so is aborted exactly while its
    stream is open. */
module TerminalSendTheorems {
  import opened Wrappers
  import opened TerminalInput
  import opened TerminalInputProofs
  import opened TerminalPlane
  import opened TerminalPlaneProofs
  import opened TerminalHistory
  import opened TerminalOutputTheorems
  import opened TerminalSettlementTheorems
  import opened TerminalEffects
  import opened TerminalWireTheorems
  import opened TerminalGeometryTheorems

  // ---------------------------------------------------------------------------
  // Frames of one operation.
  // ---------------------------------------------------------------------------

  /** A paste is PASTE_BEGIN, the least number of chunks that carry its bytes, and PASTE_COMMIT; everything else
      is one frame. */
  lemma FramesCover(op: Operation)
    ensures !op.Paste? ==> op.FrameCount() == 1
    ensures op.Paste? ==> op.FrameCount() >= 2 && (op.FrameCount() - 2) * 65531 >= |op.data|
    ensures op.Paste? && op.data != [] ==> (op.FrameCount() - 3) * 65531 < |op.data|
  {
    if op.Paste? {
      var n := |op.data| + 65530;
      assert n == n / 65531 * 65531 + n % 65531;
    }
  }

  /** What the encoder takes: raw bytes and a key whose body fits one frame, a paste that is not empty and at most
      1 MiB, and so at most 19 frames; anything else always. */
  lemma EncodableExactly(op: Operation)
    ensures op.Encodes() <==>
      && (op.Raw? ==> |op.bytes| <= 65535) && (op.Key? ==> op.textBytes <= 65523) && (op.Paste? ==> 1 <= |op.data| <= 1048576)
    ensures op.Encodes() ==> op.FrameCount() <= 19
  {
  }

  /** What an operation holds of the byte bounds: the bytes a caller gave, a key 12 and its UTF-16 length, the other
      bodies their fixed size. */
  lemma RetainedExactly(op: Operation)
    ensures op.Raw? ==> op.BodyBytes() == |op.bytes|
    ensures op.Paste? ==> op.BodyBytes() == |op.data|
    ensures op.Key? ==> op.BodyBytes() == 12 + op.textUnits
    ensures op.Resize? ==> op.BodyBytes() == 12
    ensures op.Mouse? ==> op.BodyBytes() == 17
    ensures op.Focus? ==> op.BodyBytes() == 1
  {
  }

  // ---------------------------------------------------------------------------
  // The frames of one event.
  // ---------------------------------------------------------------------------

  /** A link of the present attachment runs while its stream is open. */
  predicate Sends(p: Plane, g: nat) { !p.life.detached && p.life.stream.Some? && g == p.life.generation }

  /** The link holds the RESIZE slot. */
  predicate InSlot(p: Plane, job: Job) { p.input.geometryOperation == Some(job.item.entry.ticket) }

  /** What a link that starts offers first: its operation, or for the RESIZE of the slot the latest geometry, if
      the screen is live and the stream does not have it. */
  function FirstFrame(p: Plane, job: Job): seq<WireFrame> {
    if InSlot(p, job) then
      (if LiveScreen(p) && p.input.desired.Some? && p.input.sent != p.input.desired
       then [WireFrame(job.item.(entry := job.item.entry.(op := Resize(p.input.desired.value))), Data(0))] else [])
    else if job.item.entry.op.Encodes() then [WireFrame(job.item, Data(0))]
    else []
  }

  /** The frames event e offers to stream g: the first of a link that starts, the next after one was accepted, and
      an abort after one was rejected once a paste had begun. */
  function FramesBy(p: Plane, e: Event, g: nat): seq<WireFrame> {
    if !e.Chain() || e.generation != g || p.input.Chain(g) == [] then [] else
      var job := p.input.Chain(g)[0];
      match e
      case EvChainRun(_) => if job.phase.Waiting? && Sends(p, g) then FirstFrame(p, job) else []
      case EvSendDone(_) =>
        if job.phase.Sending? && job.phase.index + 1 < job.item.entry.op.FrameCount()
        then [WireFrame(job.item, Data(job.phase.index + 1))] else []
      case EvSendFail(_) =>
        if job.phase.Sending? && job.item.entry.op.Paste? && job.phase.index > 0
           && p.life.stream.Some? && p.life.stream.value.generation == g
        then [WireFrame(job.item, Abort)] else []
      case _ => []
  }

  /** The chain of stream g after event e, but for links that join at its end. */
  function ChainAfter(p: Plane, e: Event, g: nat): seq<Job> {
    var chain := p.input.Chain(g);
    if !e.Chain() || e.generation != g || chain == [] then chain else
      var job, rest := chain[0], chain[1..];
      match e
      case EvChainRun(_) =>
        if !job.phase.Waiting? then chain
        else if FramesBy(p, e, g) != [] then [Job(FramesBy(p, e, g)[0].item, Sending(0))] + rest
        else if Sends(p, g) && !InSlot(p, job) then [Job(job.item, Failed)] + rest
        else rest
      case EvSendDone(_) =>
        if !job.phase.Sending? then chain
        else if FramesBy(p, e, g) != [] then [Job(job.item, Sending(job.phase.index + 1))] + rest
        else rest
      case EvSendFail(_) =>
        if !job.phase.Sending? then chain
        else [Job(job.item, if FramesBy(p, e, g) != [] then Aborting else Failed)] + rest
      case EvAbortDone(_) => if job.phase.Aborting? then [Job(job.item, Failed)] + rest else chain
      case EvChainCatch(_) => if job.phase.Failed? then rest else chain
  }

  ghost predicate SendIs(p: Plane, e: Event, i: Input, g: nat) {
    && i.Wire(g) == p.input.Wire(g) + FramesBy(p, e, g)
    && Extends(ChainAfter(p, e, g), i.Chain(g))
  }

  // ---------------------------------------------------------------------------
  // The law.
  // ---------------------------------------------------------------------------

  /** The gate of a coherent plane. */
  lemma GateIs(p: Plane, g: nat)
    requires PlaneOk(p)
    ensures var gate := GateOf(p.life, p.route);
      && InputOk(p.input, gate)
      && (gate.Current(g) && gate.stream == Some(g) <==> Sends(p, g))
      && (gate.stream == Some(g) <==> p.life.stream.Some? && p.life.stream.value.generation == g)
      && (Sends(p, g) ==> (gate.hydrated <==> LiveScreen(p)))
  {
    hide InputOk, QueuesOk, SerialOk, OutputOk, DetachOk, ReattachOk, OpeningsOk;
  }

  lemma PumpSends(i: Input, gate: Gate, g: nat)
    ensures Pump(i, gate).Wire(g) == i.Wire(g) && Extends(i.Chain(g), Pump(i, gate).Chain(g))
  {
    PumpKeepsLogs(i, gate);
    PumpExtends(i, gate);
  }

  lemma SettleSends(i: Input, gate: Gate, item: Inflight, g: nat)
    ensures Settle(i, gate, item, Cancelled, None, None, 0).Wire(g) == i.Wire(g)
    ensures Extends(i.Chain(g), Settle(i, gate, item, Cancelled, None, None, 0).Chain(g))
    ensures Pump(Release(i, item), gate).Wire(g) == i.Wire(g) && Extends(i.Chain(g), Pump(Release(i, item), gate).Chain(g))
  {
    hide Pump;
    PumpSends(Release(i, item), gate, g);
    if Holds(i, item) { PumpSends(Record(i, gate, item, Cancelled, None, None, 0), gate, g); }
  }

  /** Another chain moves nothing of this one's stream, but may free room for it. */
  lemma OtherChain(i: Input, gate: Gate, e: Event, g: nat)
    requires e.Chain() && e.generation != g
    ensures ChainInput(i, gate, e).Wire(g) == i.Wire(g) && Extends(i.Chain(g), ChainInput(i, gate, e).Chain(g))
  {
    hide Settle, Pump, Release, Extends;
    ExtendsSelf(i.Chain(g));
    if i.Chain(e.generation) != [] {
      var item := i.Chain(e.generation)[0].item;
      SettleSends(PopHead(i, e.generation), gate, item, g);
    }
  }

  lemma ExtendsSelf(chain: seq<Job>)
    ensures Extends(chain, chain)
  {
  }

  lemma OwnStart(p: Plane, e: Event, g: nat)
    requires PlaneOk(p) && e == EvChainRun(g) && p.input.Chain(g) != []
    ensures SendIs(p, e, ChainRun(p.input, GateOf(p.life, p.route), g), g)
  {
    hide PlaneOk, InputOk, ChainRun, SendIs, StreamOk;
    GateIs(p, g);
    HeadLinked(p.input, GateOf(p.life, p.route), g);
    HeadGeneration(p.input, g);
    if !p.input.Chain(g)[0].phase.Waiting? || !Sends(p, g) {
      StartUnsent(p, e, g);
    } else if InSlot(p, p.input.Chain(g)[0]) {
      StartInSlot(p, e, g);
    } else {
      StartOther(p, e, g);
    }
  }

  /** The gate is the plane's, and the head of the chain is of this generation. */
  predicate GateFits(p: Plane, g: nat) {
    var gate := GateOf(p.life, p.route);
    && p.input.Chain(g) != [] && p.input.Chain(g)[0].item.generation == g
    && (gate.Current(g) && gate.stream == Some(g) <==> Sends(p, g))
    && (Sends(p, g) ==> (gate.hydrated <==> LiveScreen(p)))
  }

  lemma StartUnsent(p: Plane, e: Event, g: nat)
    requires GateFits(p, g) && e == EvChainRun(g) && (!p.input.Chain(g)[0].phase.Waiting? || !Sends(p, g))
    ensures SendIs(p, e, ChainRun(p.input, GateOf(p.life, p.route), g), g)
  {
    hide Settle, Pump, Sends;
    SettleSends(PopHead(p.input, g), GateOf(p.life, p.route), p.input.Chain(g)[0].item, g);
  }

  lemma StartInSlot(p: Plane, e: Event, g: nat)
    requires GateFits(p, g) && e == EvChainRun(g) && Sends(p, g) && p.input.Chain(g)[0].phase.Waiting? && InSlot(p, p.input.Chain(g)[0])
    ensures SendIs(p, e, ChainRun(p.input, GateOf(p.life, p.route), g), g)
  {
    hide Settle, Pump, Release, Sends;
    SettleSends(PopHead(p.input, g), GateOf(p.life, p.route), p.input.Chain(g)[0].item, g);
  }

  lemma StartOther(p: Plane, e: Event, g: nat)
    requires GateFits(p, g) && e == EvChainRun(g) && Sends(p, g) && p.input.Chain(g)[0].phase.Waiting? && !InSlot(p, p.input.Chain(g)[0])
    ensures SendIs(p, e, ChainRun(p.input, GateOf(p.life, p.route), g), g)
  {
    hide Settle, Pump, Release, Sends;
  }

  lemma HeadGeneration(i: Input, g: nat)
    requires i.Chain(g) != [] && StreamOk(i.Chain(g), i.Wire(g), g)
    ensures i.Chain(g)[0].item.generation == g
  {
  }

  lemma OwnMove(p: Plane, e: Event, g: nat)
    requires PlaneOk(p) && e.Chain() && !e.EvChainRun? && e.generation == g && p.input.Chain(g) != []
    ensures SendIs(p, e, ChainInput(p.input, GateOf(p.life, p.route), e), g)
  {
    hide PlaneOk, SendIs, ChainInput;
    GateIs(p, g);
    if e.EvSendFail? { MoveFails(p, e, g); } else { MoveOn(p, e, g); }
  }

  lemma MoveFails(p: Plane, e: Event, g: nat)
    requires e == EvSendFail(g) && p.input.Chain(g) != []
    requires GateOf(p.life, p.route).stream == Some(g) <==> p.life.stream.Some? && p.life.stream.value.generation == g
    ensures SendIs(p, e, ChainInput(p.input, GateOf(p.life, p.route), e), g)
  {
    hide Extends;
    ExtendsSelf(ChainAfter(p, e, g));
  }

  lemma MoveOn(p: Plane, e: Event, g: nat)
    requires e.Chain() && !e.EvChainRun? && !e.EvSendFail? && e.generation == g && p.input.Chain(g) != []
    ensures SendIs(p, e, ChainInput(p.input, GateOf(p.life, p.route), e), g)
  {
    hide Settle, Extends;
    ExtendsSelf(ChainAfter(p, e, g));
    SettleSends(PopHead(p.input, g), GateOf(p.life, p.route), p.input.Chain(g)[0].item, g);
  }

  /** Exactly the frames of every event, on every stream, and what becomes of its chain. */
  lemma WireExact(p: Plane, e: Event, g: nat)
    requires PlaneOk(p)
    ensures Step(p, e).input.Wire(g) == p.input.Wire(g) + FramesBy(p, e, g)
    ensures Extends(ChainAfter(p, e, g), Step(p, e).input.Chain(g))
  {
    hide PlaneOk, Step, ChainInput, FramesBy, ChainAfter, Due, TerminalGeometryTheorems.Held, Resizes;
    if e.Chain() {
      ChainStep(p, e);
      ChainParts(p, e, g);
      if e.generation != g {
        OtherChain(p.input, GateOf(p.life, p.route), e, g);
      } else if p.input.Chain(g) == [] {
        EmptyChain(p.input, GateOf(p.life, p.route), e);
      } else if e.EvChainRun? {
        ChainRunIs(p.input, GateOf(p.life, p.route), e);
        OwnStart(p, e, g);
      } else {
        OwnMove(p, e, g);
      }
    } else {
      OthersKeep(p, e);
      ChainParts(p, e, g);
      assert Extends(p.input.Chain(g), Step(p, e).input.Chain(g));
    }
  }

  lemma ChainParts(p: Plane, e: Event, g: nat)
    ensures !e.Chain() || e.generation != g || p.input.Chain(g) == [] ==>
      FramesBy(p, e, g) == [] && ChainAfter(p, e, g) == p.input.Chain(g)
  {
  }

  lemma ChainRunIs(i: Input, gate: Gate, e: Event)
    requires e.EvChainRun?
    ensures ChainInput(i, gate, e) == ChainRun(i, gate, e.generation)
  {
  }

  lemma EmptyChain(i: Input, gate: Gate, e: Event)
    requires e.Chain() && i.Chain(e.generation) == []
    ensures ChainInput(i, gate, e) == i
  {
  }

  // ---------------------------------------------------------------------------
  // Over every run: what has begun goes on until it is whole or rejected.
  // ---------------------------------------------------------------------------

  /** The last frame offered for an operation is awaited by the head of its chain. */
  predicate Awaited(chain: seq<Job>, b: Burst) {
    chain != [] && b.offered >= 1 && chain[0] == Job(b.item, Sending(b.offered - 1))
  }

  /** Event n of a run rejects the last frame offered for this operation. */
  predicate RejectedAt(fixedSubscription: bool, events: seq<Event>, n: nat, g: nat, b: Burst)
    requires n < |events|
  {
    events[n] == EvSendFail(g) && Awaited(Run(Initial(fixedSubscription), events[..n]).input.Chain(g), b)
  }

  /** An abort does not change which frame was the last. */
  ghost predicate Stopped(fixedSubscription: bool, events: seq<Event>, g: nat, b: Burst) {
    exists n: nat :: n < |events| && RejectedAt(fixedSubscription, events, n, g, b)
  }

  predicate Whole(b: Burst) { b.offered == b.item.entry.op.FrameCount() }

  ghost predicate Told(fixedSubscription: bool, events: seq<Event>, g: nat, b: Burst) {
    || Whole(b) || Stopped(fixedSubscription, events, g, b)
    || Awaited(Run(Initial(fixedSubscription), events).input.Chain(g), b)
  }

  ghost predicate AllTold(fixedSubscription: bool, events: seq<Event>, g: nat) {
    var bursts := Bursts(Run(Initial(fixedSubscription), events).input.Wire(g));
    forall j :: 0 <= j < |bursts| ==> Told(fixedSubscription, events, g, bursts[j])
  }

  /** What is whole or was stopped stays so. */
  lemma ToldOn(fixedSubscription: bool, front: seq<Event>, e: Event, g: nat, b: Burst)
    requires Told(fixedSubscription, front, g, b) && !Awaited(Run(Initial(fixedSubscription), front).input.Chain(g), b)
    ensures Told(fixedSubscription, front + [e], g, b)
  {
    hide Run, Awaited;
    if !Whole(b) {
      var n: nat :| n < |front| && RejectedAt(fixedSubscription, front, n, g, b);
      assert (front + [e])[..n] == front[..n];
      assert RejectedAt(fixedSubscription, front + [e], n, g, b);
    }
  }

  /** The awaited frame is rejected now. */
  lemma StoppedNow(fixedSubscription: bool, front: seq<Event>, g: nat, b: Burst)
    requires Awaited(Run(Initial(fixedSubscription), front).input.Chain(g), b)
    ensures Told(fixedSubscription, front + [EvSendFail(g)], g, b)
    ensures Told(fixedSubscription, front + [EvSendFail(g)], g, b.(aborted := true))
  {
    hide Run;
    var events := front + [EvSendFail(g)];
    assert events[..|front|] == front;
    assert RejectedAt(fixedSubscription, events, |front|, g, b) && RejectedAt(fixedSubscription, events, |front|, g, b.(aborted := true));
  }

  /** The cut of a wire with one frame more. */
  lemma BurstsMore(wire: seq<WireFrame>, frame: WireFrame)
    ensures var before, after := Bursts(wire), Bursts(wire + [frame]);
      if frame.part == Data(0) || before == [] then after == before + [Burst(frame.item, 1, false)]
      else after == before[..|before| - 1] + [Grown(before[|before| - 1], frame.part)]
  {
    assert (wire + [frame])[..|wire|] == wire;
  }

  /** Only the last operation of a stream can be awaited, and it is when the head of the chain awaits a frame. */
  lemma LastBurst(chain: seq<Job>, wire: seq<WireFrame>, g: nat)
    requires StreamOk(chain, wire, g) && chain != [] && chain[0].phase.Sending?
    ensures Bursts(wire) != [] && Awaited(chain, Bursts(wire)[|Bursts(wire)| - 1]) && !Bursts(wire)[|Bursts(wire)| - 1].aborted
    ensures forall k :: 0 <= k < |Bursts(wire)| - 1 ==> !Awaited(chain, Bursts(wire)[k])
    ensures chain[0].phase.index < chain[0].item.entry.op.FrameCount()
  {
    hide Orderly;
    WireIsBursts(wire);
    assert wire[|wire| - 1] == WireFrame(chain[0].item, Data(chain[0].phase.index));
    LastAlone(Bursts(wire));
  }

  lemma LastAlone(bursts: seq<Burst>)
    requires Orderly(bursts) && bursts != []
    ensures forall k :: 0 <= k < |bursts| - 1 ==> bursts[k].item != bursts[|bursts| - 1].item
  {
  }

  /** No frame is offered: what is awaited stays awaited, was the last one, or is rejected. */
  lemma NoFrame(fixedSubscription: bool, front: seq<Event>, e: Event, g: nat, b: Burst)
    requires var p := Run(Initial(fixedSubscription), front);
      && FramesBy(p, e, g) == [] && StreamOk(p.input.Chain(g), p.input.Wire(g), g)
      && Extends(ChainAfter(p, e, g), Step(p, e).input.Chain(g))
    requires Told(fixedSubscription, front, g, b)
    ensures Told(fixedSubscription, front + [e], g, b)
  {
    hide Step, Bursts;
    var p := Run(Initial(fixedSubscription), front);
    var chain := p.input.Chain(g);
    if !Awaited(chain, b) {
      ToldOn(fixedSubscription, front, e, g, b);
    } else if e == EvSendFail(g) {
      StoppedNow(fixedSubscription, front, g, b);
    } else if e == EvSendDone(g) {
      LastBurst(chain, p.input.Wire(g), g);
      assert Whole(b);
    } else {
      RunMore(fixedSubscription, front, e);
    }
  }

  lemma RunMore(fixedSubscription: bool, front: seq<Event>, e: Event)
    ensures Run(Initial(fixedSubscription), front + [e]) == Step(Run(Initial(fixedSubscription), front), e)
  {
    hide Step;
    assert (front + [e])[..|front|] == front;
  }

  /** One frame is offered: a new operation begins, the last one goes on, or it is aborted. */
  lemma OneFrame(fixedSubscription: bool, front: seq<Event>, e: Event, g: nat)
    requires var p := Run(Initial(fixedSubscription), front);
      && FramesBy(p, e, g) != [] && StreamOk(p.input.Chain(g), p.input.Wire(g), g)
      && Step(p, e).input.Wire(g) == p.input.Wire(g) + FramesBy(p, e, g)
      && Extends(ChainAfter(p, e, g), Step(p, e).input.Chain(g))
    requires AllTold(fixedSubscription, front, g)
    ensures AllTold(fixedSubscription, front + [e], g)
  {
    hide Step, Run, Bursts, Told;
    var p := Run(Initial(fixedSubscription), front);
    var chain, wire := p.input.Chain(g), p.input.Wire(g);
    var frame := FramesBy(p, e, g)[0];
    var before, after := Bursts(wire), Bursts(wire + [frame]);
    assert FramesBy(p, e, g) == [frame];
    RunMore(fixedSubscription, front, e);
    BurstsMore(wire, frame);
    if !e.EvChainRun? { LastBurst(chain, wire, g); }
    forall j | 0 <= j < |before| && !Awaited(chain, before[j]) ensures Told(fixedSubscription, front + [e], g, before[j]) {
      ToldOn(fixedSubscription, front, e, g, before[j]);
    }
    if e.EvSendFail? {
      StoppedNow(fixedSubscription, front, g, before[|before| - 1]);
    } else {
      AwaitedTold(fixedSubscription, front + [e], g, after[|after| - 1]);
    }
  }

  lemma AwaitedTold(fixedSubscription: bool, events: seq<Event>, g: nat, b: Burst)
    requires Awaited(Run(Initial(fixedSubscription), events).input.Chain(g), b)
    ensures Told(fixedSubscription, events, g, b)
  {
  }

  lemma {:induction false} TellAll(fixedSubscription: bool, events: seq<Event>, g: nat)
    ensures AllTold(fixedSubscription, events, g)
    decreases |events|
  {
    hide PlaneOk, InputOk, Step, Told, FramesBy, ChainAfter, Bursts, StreamOk;
    if events == [] {
      NothingOffered(fixedSubscription, g);
    } else {
      var front, e := events[..|events| - 1], events[|events| - 1];
      var p := Run(Initial(fixedSubscription), front);
      TellAll(fixedSubscription, front, g);
      RunOk(fixedSubscription, front);
      WireExact(p, e, g);
      GateIs(p, g);
      HeadLinked(p.input, GateOf(p.life, p.route), g);
      assert front + [e] == events;
      if FramesBy(p, e, g) != [] {
        OneFrame(fixedSubscription, front, e, g);
      } else {
        assert Step(p, e).input.Wire(g) == p.input.Wire(g);
        forall j | 0 <= j < |Bursts(p.input.Wire(g))| ensures Told(fixedSubscription, events, g, Bursts(p.input.Wire(g))[j]) {
          NoFrame(fixedSubscription, front, e, g, Bursts(p.input.Wire(g))[j]);
        }
      }
    }
  }

  lemma NothingOffered(fixedSubscription: bool, g: nat)
    ensures Bursts(Run(Initial(fixedSubscription), []).input.Wire(g)) == []
  {
  }

  /** Every operation offered to a stream has all its frames offered, COMMIT included, unless the stream rejected
      the last one offered, or that one is still awaited. */
  lemma WholeOrRejected(fixedSubscription: bool, events: seq<Event>, g: nat, k: nat)
    requires k < |Bursts(Run(Initial(fixedSubscription), events).input.Wire(g))|
    ensures var b := Bursts(Run(Initial(fixedSubscription), events).input.Wire(g))[k];
      || b.offered == b.item.entry.op.FrameCount() || Stopped(fixedSubscription, events, g, b)
      || Awaited(Run(Initial(fixedSubscription), events).input.Chain(g), b)
  {
    hide Bursts, Run;
    TellAll(fixedSubscription, events, g);
  }

  // ---------------------------------------------------------------------------
  // Aborts.
  // ---------------------------------------------------------------------------

  /** Event n of a run rejects a frame of a paste that had begun, while its stream is open. */
  predicate AbortsAt(fixedSubscription: bool, events: seq<Event>, n: nat, g: nat, item: Inflight)
    requires n < |events|
  {
    var p := Run(Initial(fixedSubscription), events[..n]);
    && events[n] == EvSendFail(g) && item.entry.op.Paste?
    && p.life.stream.Some? && p.life.stream.value.generation == g
    && p.input.Chain(g) != [] && p.input.Chain(g)[0].item == item
    && p.input.Chain(g)[0].phase.Sending? && p.input.Chain(g)[0].phase.index > 0
  }

  /** An abort goes out for a paste exactly when one of its frames after the first was rejected on the open stream. */
  lemma {:induction false} AbortedIff(fixedSubscription: bool, events: seq<Event>, g: nat, item: Inflight)
    ensures WireFrame(item, Abort) in Run(Initial(fixedSubscription), events).input.Wire(g)
       <==> exists n: nat :: n < |events| && AbortsAt(fixedSubscription, events, n, g, item)
    decreases |events|
  {
    hide PlaneOk, Step, AbortsAt;
    if events == [] {
      NothingSent(fixedSubscription, g);
    } else {
      var front, e := events[..|events| - 1], events[|events| - 1];
      var p := Run(Initial(fixedSubscription), front);
      AbortedIff(fixedSubscription, front, g, item);
      RunOk(fixedSubscription, front);
      WireExact(p, e, g);
      AbortNow(fixedSubscription, events, g, item);
      forall n: nat | n < |front| ensures AbortsAt(fixedSubscription, events, n, g, item) <==> AbortsAt(fixedSubscription, front, n, g, item) {
        SameAbort(fixedSubscription, events, n, g, item);
      }
    }
  }

  lemma SameAbort(fixedSubscription: bool, events: seq<Event>, n: nat, g: nat, item: Inflight)
    requires n + 1 < |events|
    ensures AbortsAt(fixedSubscription, events, n, g, item) <==>
      AbortsAt(fixedSubscription, events[..|events| - 1], n, g, item)
  {
    hide Run;
    assert events[..|events| - 1][..n] == events[..n];
  }

  lemma AbortNow(fixedSubscription: bool, events: seq<Event>, g: nat, item: Inflight)
    requires events != []
    ensures WireFrame(item, Abort) in FramesBy(Run(Initial(fixedSubscription), events[..|events| - 1]), events[|events| - 1], g)
       <==> AbortsAt(fixedSubscription, events, |events| - 1, g, item)
  {
    hide Run;
  }

  lemma NothingSent(fixedSubscription: bool, g: nat)
    ensures Run(Initial(fixedSubscription), []).input.Wire(g) == [] && Run(Initial(fixedSubscription), []).input.inflight == []
  {
  }

  // ---------------------------------------------------------------------------
  // Nothing is dropped.
  // ---------------------------------------------------------------------------

  /** The head leaves its chain; its own operation must have begun, or not be in flight. */
  lemma PopLeaves(i: Input, g: nat, x: Inflight)
    requires i.Chain(g) != [] && (InChain(i, x) || Begun(i, x))
    requires x.generation == g && Same(i.Chain(g)[0].item, x) ==> Begun(i, x)
    ensures InChain(PopHead(i, g), x) || Begun(PopHead(i, g), x)
  {
    var j := PopHead(i, g);
    if Begun(i, x) {
      var k :| 0 <= k < |i.Wire(x.generation)| && Same(i.Wire(x.generation)[k].item, x);
      assert Same(j.Wire(x.generation)[k].item, x);
    } else {
      var k :| 0 <= k < |i.Chain(x.generation)| && Same(i.Chain(x.generation)[k].item, x);
      if x.generation == g { assert Same(j.Chain(g)[k - 1].item, x); } else { assert Same(j.Chain(x.generation)[k].item, x); }
    }
  }

  lemma SetLeaves(i: Input, g: nat, job: Job)
    requires Carried(i) && i.Chain(g) != [] && Same(job.item, i.Chain(g)[0].item)
    ensures Carried(SetHead(i, g, job))
  {
    var j := SetHead(i, g, job);
    forall m | 0 <= m < |j.inflight| ensures InChain(j, j.inflight[m]) || Begun(j, j.inflight[m]) {
      var x := i.inflight[m];
      if Begun(i, x) {
        var k :| 0 <= k < |i.Wire(x.generation)| && Same(i.Wire(x.generation)[k].item, x);
        assert Same(j.Wire(x.generation)[k].item, x);
      } else {
        var k :| 0 <= k < |i.Chain(x.generation)| && Same(i.Chain(x.generation)[k].item, x);
        assert Same(j.Chain(x.generation)[k].item, x);
      }
    }
  }

  lemma OfferLeaves(i: Input, g: nat, frame: WireFrame)
    requires Carried(i)
    ensures Carried(Offer(i, g, frame)) && Carried(Offer(i.(sent := i.desired), g, frame))
  {
    forall j | j == Offer(i, g, frame) || j == Offer(i.(sent := i.desired), g, frame) ensures Carried(j) {
      forall m | 0 <= m < |j.inflight| ensures InChain(j, j.inflight[m]) || Begun(j, j.inflight[m]) {
        CarriedOn(i, j, i.inflight[m]);
      }
    }
  }

  /** The head's link ends after its last frame. */
  lemma EndLeaves(i: Input, g: nat)
    requires Carried(i) && StreamOk(i.Chain(g), i.Wire(g), g) && i.Chain(g) != [] && i.Chain(g)[0].phase.Sending?
    ensures Carried(PopHead(i, g))
  {
    hide InChain;
    var j := PopHead(i, g);
    var last := |i.Wire(g)| - 1;
    assert i.Wire(g)[last].item == i.Chain(g)[0].item;
    forall m | 0 <= m < |j.inflight| ensures InChain(j, j.inflight[m]) || Begun(j, j.inflight[m]) {
      if i.inflight[m].generation == g && Same(i.Chain(g)[0].item, i.inflight[m]) { assert Same(i.Wire(g)[last].item, i.inflight[m]); }
      PopLeaves(i, g, i.inflight[m]);
    }
  }

  /** The head's link ends without a frame: its operation leaves the window too, if it is still there. */
  lemma LeaveTogether(i: Input, gate: Gate, g: nat, j: Input)
    requires Carried(i) && InputOk(i, gate) && i.Chain(g) != []
    requires var item := i.Chain(g)[0].item;
      j.chains == PopHead(i, g).chains && j.wires == i.wires
      && j.inflight == (if Holds(i, item) then Without(i, item).inflight else i.inflight)
    ensures Carried(j)
  {
    hide InChain, Begun, GeometryOk, BytesOk, ChainsOk, OrderOk, FenceOk, UnsafeOk, TicketsOk;
    var item := i.Chain(g)[0].item;
    var popped := PopHead(i, g);
    forall m | 0 <= m < |j.inflight| ensures InChain(j, j.inflight[m]) || Begun(j, j.inflight[m]) {
      var x := j.inflight[m];
      assert x in i.inflight && !Same(item, x) by { NotTheItem(i, gate, item, x, j.inflight); }
      var k :| 0 <= k < |i.inflight| && i.inflight[k] == x;
      PopLeaves(i, g, x);
      SameCarrier(popped, j, x);
    }
  }

  lemma SameCarrier(i: Input, j: Input, x: Inflight)
    requires j.chains == i.chains && j.wires == i.wires && (InChain(i, x) || Begun(i, x))
    ensures InChain(j, x) || Begun(j, x)
  {
    CarriedOn(i, j, x);
  }

  lemma NotTheItem(i: Input, gate: Gate, item: Inflight, x: Inflight, left: seq<Inflight>)
    requires WindowOk(i.inflight, i.nextOperationId, gate) && x in left
    requires left == if Holds(i, item) then Without(i, item).inflight else i.inflight
    ensures x in i.inflight && !Same(item, x)
  {
    var n := IndexOf(i.inflight, item.operationId);
    if Holds(i, item) {
      var m :| 0 <= m < |left| && left[m] == x;
      assert x == i.inflight[if m < n then m else m + 1];
    } else {
      var m :| 0 <= m < |i.inflight| && i.inflight[m] == x;
      if m != n && n < |i.inflight| { assert i.inflight[m].operationId != i.inflight[n].operationId; }
    }
  }

  lemma ChainCarried(p: Plane, e: Event)
    requires PlaneOk(p) && e.Chain() && Carried(p.input)
    ensures Carried(Step(p, e).input)
  {
    hide PlaneOk, InputOk, StreamOk, Carried, Step, ChainInput;
    var i, gate, g := p.input, GateOf(p.life, p.route), e.generation;
    ChainStep(p, e);
    GateIs(p, g);
    HeadLinked(i, gate, g);
    if i.Chain(g) == [] {
      EmptyChain(i, gate, e);
    } else if e.EvChainRun? {
      ChainRunIs(i, gate, e);
      RunCarried(i, gate, g);
    } else {
      MoveCarried(i, gate, e);
    }
  }

  lemma CancelCarried(i: Input, gate: Gate, g: nat)
    requires InputOk(i, gate) && Carried(i) && i.Chain(g) != []
    ensures var item := i.Chain(g)[0].item;
      Carried(Settle(PopHead(i, g), gate, item, Cancelled, None, None, 0)) && Carried(Pump(Release(PopHead(i, g), item), gate))
  {
    hide InputOk, Carried, Pump;
    var item := i.Chain(g)[0].item;
    var popped := PopHead(i, g);
    LeaveTogether(i, gate, g, Release(popped, item));
    PumpCarried(Release(popped, item), gate);
    if Holds(popped, item) {
      LeaveTogether(i, gate, g, Record(popped, gate, item, Cancelled, None, None, 0));
      PumpCarried(Record(popped, gate, item, Cancelled, None, None, 0), gate);
    } else {
      LeaveTogether(i, gate, g, popped);
    }
  }

  lemma RunCarried(i: Input, gate: Gate, g: nat)
    requires InputOk(i, gate) && Carried(i) && i.Chain(g) != []
    ensures Carried(ChainRun(i, gate, g))
  {
    hide InputOk, Carried, Settle, Release, Pump;
    var item := i.Chain(g)[0].item;
    CancelCarried(i, gate, g);
    SetLeaves(i, g, Job(item, Failed));
    SetLeaves(i, g, Job(item, Sending(0)));
    OfferLeaves(SetHead(i, g, Job(item, Sending(0))), g, WireFrame(item, Data(0)));
    if i.desired.Some? {
      var late := item.(entry := item.entry.(op := Resize(i.desired.value)));
      SetLeaves(i, g, Job(late, Sending(0)));
      OfferLeaves(SetHead(i, g, Job(late, Sending(0))), g, WireFrame(late, Data(0)));
    }
  }

  lemma MoveCarried(i: Input, gate: Gate, e: Event)
    requires InputOk(i, gate) && Carried(i) && e.Chain() && !e.EvChainRun? && i.Chain(e.generation) != []
    requires StreamOk(i.Chain(e.generation), i.Wire(e.generation), e.generation)
    ensures Carried(ChainInput(i, gate, e))
  {
    hide InputOk, StreamOk, Carried, Settle;
    var g := e.generation;
    var job := i.Chain(g)[0];
    CancelCarried(i, gate, g);
    SetLeaves(i, g, Job(job.item, Failed));
    SetLeaves(i, g, Job(job.item, Aborting));
    OfferLeaves(SetHead(i, g, Job(job.item, Aborting)), g, WireFrame(job.item, Abort));
    if job.phase.Sending? {
      EndLeaves(i, g);
      SetLeaves(i, g, Job(job.item, Sending(job.phase.index + 1)));
      OfferLeaves(SetHead(i, g, Job(job.item, Sending(job.phase.index + 1))), g, WireFrame(job.item, Data(job.phase.index + 1)));
    }
  }

  /** In every reachable state each operation in flight waits in the send chain of its attachment, or its stream
      was offered a frame of it: none is held without being sent. */
  lemma {:induction false} NothingDropped(fixedSubscription: bool, events: seq<Event>)
    ensures Carried(Run(Initial(fixedSubscription), events).input)
    decreases |events|
  {
    hide PlaneOk, Step, Carried, Due, TerminalGeometryTheorems.Held, Resizes;
    if events == [] {
      NothingSent(fixedSubscription, 0);
      NothingCarried(fixedSubscription);
    } else {
      var front, e := events[..|events| - 1], events[|events| - 1];
      NothingDropped(fixedSubscription, front);
      RunOk(fixedSubscription, front);
      if e.Chain() {
        ChainCarried(Run(Initial(fixedSubscription), front), e);
      } else {
        OthersKeep(Run(Initial(fixedSubscription), front), e);
      }
    }
  }

  lemma NothingCarried(fixedSubscription: bool)
    ensures Carried(Initial(fixedSubscription).input)
  {
  }
}
