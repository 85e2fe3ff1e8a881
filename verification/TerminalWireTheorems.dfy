/** What the streams carry, over every run: whole operations in order, within the window and byte
    bounds, and unsafe pastes only under the consent that a refusal of the same bytes gave. */
module TerminalWireTheorems {
  import opened Wrappers
  import opened TerminalInput
  import opened TerminalInputProofs
  import opened TerminalPlane
  import opened TerminalPlaneProofs
  import opened TerminalHistory
  import opened TerminalOutputTheorems
  import opened TerminalSettlementTheorems

  // ---------------------------------------------------------------------------
  // Frames of one operation are contiguous.
  // ---------------------------------------------------------------------------

  /** The frames offered for one operation: its first `offered` frames, then perhaps one abort. */
  datatype Burst = Burst(item: Inflight, offered: nat, aborted: bool)
  {
    function Frames(): seq<WireFrame> {
      seq(offered, k requires 0 <= k < offered => WireFrame(item, Data(k)))
      + if aborted then [WireFrame(item, Abort)] else []
    }

    /** Non-empty, no more than the operation has; only a paste that had begun is aborted. */
    predicate Ok() {
      && 1 <= offered <= item.entry.op.FrameCount()
      && (aborted ==> item.entry.op.Paste? && offered >= 2)
    }
  }

  function Flatten(bursts: seq<Burst>): seq<WireFrame> {
    if bursts == [] then [] else Flatten(bursts[..|bursts| - 1]) + bursts[|bursts| - 1].Frames()
  }

  /** The wire cut at the first frame of each operation. */
  function Bursts(wire: seq<WireFrame>): seq<Burst> {
    if wire == [] then [] else
      var before := Bursts(wire[..|wire| - 1]);
      var last := wire[|wire| - 1];
      if last.part == Data(0) || before == [] then before + [Burst(last.item, 1, false)]
      else
        var b := before[|before| - 1];
        before[..|before| - 1] + [Grown(b, last.part)]
  }

  ghost predicate Orderly(bursts: seq<Burst>) {
    && (forall k :: 0 <= k < |bursts| ==> bursts[k].Ok())
    && (forall j, k :: 0 <= j < k < |bursts| ==> bursts[j].item.operationId < bursts[k].item.operationId)
  }

  /** The last burst ends with the last frame. */
  ghost predicate EndsWith(bursts: seq<Burst>, last: WireFrame) {
    bursts != [] &&
      var b := bursts[|bursts| - 1];
      && b.item == last.item
      && match last.part
         case Data(k) => b.offered == k + 1 && !b.aborted
         case Abort => b.aborted
  }

  lemma FlattenLast(before: seq<Burst>, b: Burst)
    ensures Flatten(before + [b]) == Flatten(before) + b.Frames()
  {
    assert (before + [b])[..|before|] == before;
  }

  lemma MoreFrames(b: Burst)
    requires !b.aborted
    ensures b.(offered := b.offered + 1).Frames() == b.Frames() + [WireFrame(b.item, Data(b.offered))]
    ensures b.(aborted := true).Frames() == b.Frames() + [WireFrame(b.item, Abort)]
  {
  }

  lemma NewBurst(before: seq<Burst>, last: WireFrame)
    requires Orderly(before) && last.part == Data(0)
    requires before != [] ==> before[|before| - 1].item.operationId < last.item.operationId
    ensures var after := before + [Burst(last.item, 1, false)];
      Flatten(after) == Flatten(before) + [last] && Orderly(after) && EndsWith(after, last)
  {
    hide Orderly, Flatten;
    var b := Burst(last.item, 1, false);
    FlattenLast(before, b);
    assert b.Frames() == [last];
    OrderlyAppend(before, b);
  }

  lemma OrderlyAppend(before: seq<Burst>, b: Burst)
    requires Orderly(before) && b.Ok()
    requires before != [] ==> before[|before| - 1].item.operationId < b.item.operationId
    ensures Orderly(before + [b])
  {
    hide Burst.Ok;
  }

  function Grown(b: Burst, part: Part): Burst {
    if part.Data? then b.(offered := b.offered + 1) else b.(aborted := true)
  }

  lemma MoreOfLast(before: seq<Burst>, end: WireFrame, last: WireFrame)
    requires Orderly(before) && EndsWith(before, end) && Follows(end, last) && last.part != Data(0)
    ensures var b := before[|before| - 1];
      var after := before[..|before| - 1] + [Grown(b, last.part)];
      Flatten(after) == Flatten(before) + [last] && Orderly(after) && EndsWith(after, last)
  {
    hide Flatten;
    var rest, b := before[..|before| - 1], before[|before| - 1];
    MoreFrames(b);
    assert before == rest + [b];
    FlattenLast(rest, b);
    FlattenLast(rest, Grown(b, last.part));
    assert Grown(b, last.part).Frames() == b.Frames() + [last];
  }

  lemma {:induction false} WireIsBursts(wire: seq<WireFrame>)
    requires WireOk(wire)
    ensures Flatten(Bursts(wire)) == wire && Orderly(Bursts(wire))
    ensures wire != [] ==> EndsWith(Bursts(wire), wire[|wire| - 1])
  {
    hide Orderly, EndsWith, Flatten, Follows;
    if wire == [] {
      EmptyWire();
    } else {
      var front, last := wire[..|wire| - 1], wire[|wire| - 1];
      WireIsBursts(front);
      assert wire == front + [last];
      if front == [] {
        EmptyWire();
        NewBurst([], last);
      } else {
        var end := front[|front| - 1];
        assert Follows(end, last);
        Ending(Bursts(front), end, last);
        if last.part == Data(0) { NewBurst(Bursts(front), last); } else { MoreOfLast(Bursts(front), end, last); }
      }
    }
  }

  lemma EmptyWire()
    ensures Flatten([]) == [] && Orderly([])
  {
  }

  lemma Ending(bursts: seq<Burst>, end: WireFrame, last: WireFrame)
    requires EndsWith(bursts, end) && Follows(end, last)
    ensures bursts != []
    ensures last.part == Data(0) ==> bursts[|bursts| - 1].item.operationId < last.item.operationId
  {
  }

  /** On every stream the offered frames are, in strictly increasing operation id, for each operation
      a non-empty prefix of its frames, and at most one abort after a paste that had begun. */
  lemma WireShape(fixedSubscription: bool, events: seq<Event>, g: nat)
    ensures var wire := Run(Initial(fixedSubscription), events).input.Wire(g);
      Flatten(Bursts(wire)) == wire && Orderly(Bursts(wire))
  {
    hide WindowOk, GeometryOk, BytesOk, OrderOk, FenceOk, SlotOk, UnsafeOk, LinkOk, OpeningsOk, QueuesOk, SerialOk, OutputOk;
    RunOk(fixedSubscription, events);
    var i := Run(Initial(fixedSubscription), events).input;
    assert StreamOk(Of(i.chains, g), Of(i.wires, g), g);
    WireIsBursts(i.Wire(g));
  }

  /** Everything but RESIZE leaves a stream in the order it was admitted. */
  lemma AdmissionOrder(fixedSubscription: bool, events: seq<Event>, g: nat, j: nat, k: nat)
    requires var wire := Run(Initial(fixedSubscription), events).input.Wire(g);
      j < k < |wire| && !wire[j].item.entry.op.Resize? && !wire[k].item.entry.op.Resize?
    ensures var wire := Run(Initial(fixedSubscription), events).input.Wire(g);
      wire[j].item.entry.ticket <= wire[k].item.entry.ticket
  {
    hide WindowOk, GeometryOk, BytesOk, ChainsOk, FenceOk, SlotOk, UnsafeOk, LinkOk, OpeningsOk, QueuesOk, SerialOk, OutputOk;
    RunOk(fixedSubscription, events);
    var i := Run(Initial(fixedSubscription), events).input;
    assert StreamInOrder(Of(i.chains, g), Of(i.wires, g));
  }

  // ---------------------------------------------------------------------------
  // Bounds.
  // ---------------------------------------------------------------------------

  /** Retained bytes of everything but RESIZE. */
  function PayloadBytes(inflight: seq<Inflight>): nat {
    if inflight == [] then 0
    else
      var op := inflight[|inflight| - 1].entry.op;
      PayloadBytes(inflight[..|inflight| - 1]) + if op.Resize? then 0 else op.BodyBytes()
  }

  lemma {:induction false} ResizeShare(inflight: seq<Inflight>)
    ensures InflightBytes(inflight) == PayloadBytes(inflight) + RESIZE_BODY_BYTES * ResizeCount(inflight)
  {
    if inflight != [] { ResizeShare(inflight[..|inflight| - 1]); }
  }

  /** Window, queue and byte bounds, in every reachable state. */
  lemma InputBounds(fixedSubscription: bool, events: seq<Event>)
    ensures var i := Run(Initial(fixedSubscription), events).input;
      && |i.inflight| <= 32 && |i.queued| <= 256 && ResizeCount(i.inflight) <= 1
      && QueuedBytes(i.queued) + PayloadBytes(i.inflight) + ConsentBytes(i.pending) <= MAX_QUEUED_INPUT_BYTES
      && RetainedBytes(i) <= MAX_QUEUED_INPUT_BYTES + 12
  {
    hide ChainsOk, OrderOk, FenceOk, SlotOk, UnsafeOk, LinkOk, OpeningsOk, QueuesOk, SerialOk, OutputOk;
    RunOk(fixedSubscription, events);
    ResizeShare(Run(Initial(fixedSubscription), events).input.inflight);
  }

  // ---------------------------------------------------------------------------
  // Unsafe pastes.
  // ---------------------------------------------------------------------------

  /** The refusal behind an unsafe paste. */
  ghost function RefusalOf(i: Input, e: Entry): nat
    requires e.authority.Some? && e.authority.value < |i.confirmed|
  {
    i.confirmed[e.authority.value].rejection
  }

  lemma WireAuthorized(fixedSubscription: bool, events: seq<Event>, g: nat, k: nat)
    requires k < |Run(Initial(fixedSubscription), events).input.Wire(g)|
    ensures var i := Run(Initial(fixedSubscription), events).input;
      Authorized(i.Wire(g)[k].item.entry, i.confirmed, i.outcomes, g) && ConfirmedOnce(i.confirmed, i.outcomes)
  {
    hide WindowOk, GeometryOk, BytesOk, ChainsOk, OrderOk, FenceOk, SlotOk, LinkOk, OpeningsOk, QueuesOk, SerialOk, OutputOk;
    RunOk(fixedSubscription, events);
    var i := Run(Initial(fixedSubscription), events).input;
    assert FramesAuthorized(Of(i.wires, g), i.confirmed, i.outcomes, g);
  }

  /** Every frame of an unsafe paste, on whatever stream, stands for bytes Core refused on that very
      attachment with nothing accepted and nothing written. */
  lemma UnsafePasteWasRefused(fixedSubscription: bool, events: seq<Event>, g: nat, k: nat)
    requires var i := Run(Initial(fixedSubscription), events).input;
      k < |i.Wire(g)| && i.Wire(g)[k].item.entry.op.Unsafe()
    ensures var i := Run(Initial(fixedSubscription), events).input;
      var e := i.Wire(g)[k].item.entry;
      && e.authority.Some? && e.authority.value < |i.confirmed|
      && RefusedBytes(i.outcomes, RefusalOf(i, e), e.op.data, g)
  {
    WireAuthorized(fixedSubscription, events, g, k);
  }

  /** One refusal lets at most one operation through: frames under the same refusal are one paste. */
  lemma OnePastePerRefusal(fixedSubscription: bool, events: seq<Event>, g: nat, j: nat, h: nat, k: nat)
    requires var i := Run(Initial(fixedSubscription), events).input;
      && j < |i.Wire(g)| && k < |i.Wire(h)|
      && i.Wire(g)[j].item.entry.op.Unsafe() && i.Wire(h)[k].item.entry.op.Unsafe()
      && i.Wire(g)[j].item.entry.ticket != i.Wire(h)[k].item.entry.ticket
    ensures var i := Run(Initial(fixedSubscription), events).input;
      var a, b := i.Wire(g)[j].item.entry, i.Wire(h)[k].item.entry;
      && a.authority.Some? && a.authority.value < |i.confirmed| && b.authority.Some? && b.authority.value < |i.confirmed|
      && RefusalOf(i, a) != RefusalOf(i, b)
  {
    hide Authorized, ConfirmedOnce;
    var i := Run(Initial(fixedSubscription), events).input;
    WireAuthorized(fixedSubscription, events, g, j);
    WireAuthorized(fixedSubscription, events, h, k);
    OneEach(i, i.Wire(g)[j].item.entry, g, i.Wire(h)[k].item.entry, h);
  }

  lemma OneEach(i: Input, a: Entry, g: nat, b: Entry, h: nat)
    requires Authorized(a, i.confirmed, i.outcomes, g) && Authorized(b, i.confirmed, i.outcomes, h)
    requires ConfirmedOnce(i.confirmed, i.outcomes) && a.op.Unsafe() && b.op.Unsafe() && a.ticket != b.ticket
    ensures a.authority.Some? && a.authority.value < |i.confirmed| && b.authority.Some? && b.authority.value < |i.confirmed|
    ensures RefusalOf(i, a) != RefusalOf(i, b)
  {
  }

  /** A pending consent is for the latest paste attempt, on the present attachment, for bytes refused
      whole, and its refusal has let nothing through yet. */
  lemma ConsentIsCurrent(fixedSubscription: bool, events: seq<Event>)
    requires Run(Initial(fixedSubscription), events).input.pending.Some?
    ensures var p := Run(Initial(fixedSubscription), events);
      var pending := p.input.pending.value;
      && !p.life.detached && pending.consent.generation == p.life.generation
      && RefusedBytes(p.input.outcomes, pending.rejection, pending.data, p.life.generation)
      && p.input.outcomes[pending.rejection].operationId == Some(pending.consent.operationId)
      && p.input.outcomes[pending.rejection].entry.pasteAttempt == p.input.pasteAttempt
      && forall k :: 0 <= k < |p.input.confirmed| ==> p.input.confirmed[k].rejection != pending.rejection
  {
    hide WindowOk, GeometryOk, BytesOk, ChainsOk, OrderOk, FenceOk, SlotOk, LinkOk, OpeningsOk, QueuesOk, SerialOk, OutputOk;
    RunOk(fixedSubscription, events);
  }

  /** Once no consent is pending (used, cancelled, expired, resynced or replaced), none that existed
      before admits anything ever again: every later confirmation answers a later refusal. */
  lemma WithdrawnConsentIsDead(fixedSubscription: bool, events: seq<Event>, more: seq<Event>, k: nat)
    requires var i := Run(Initial(fixedSubscription), events).input;
      i.pending.None? && |i.confirmed| <= k < |Run(Run(Initial(fixedSubscription), events), more).input.confirmed|
    ensures Run(Run(Initial(fixedSubscription), events), more).input.confirmed[k].rejection
      >= |Run(Initial(fixedSubscription), events).input.outcomes|
  {
    hide PlaneOk;
    RunOk(fixedSubscription, events);
    RunLater(Run(Initial(fixedSubscription), events), more);
  }

  /** The consent pending after an INPUT_RESULT of this attachment: a new one exactly when the operation in
      flight under its id is the latest paste attempt and its bytes were refused whole. */
  function PendingAfterResult(p: Plane, body: Body, now: nat): Option<PendingPaste>
    requires body.InputResult?
  {
    var k := IndexOf(p.input.inflight, body.operationId);
    if k < |p.input.inflight| && p.input.inflight[k].entry.pasteData.Some?
       && p.input.inflight[k].entry.pasteAttempt == p.input.pasteAttempt
       && body.name == RejectedUnsafePaste && body.accepted == Some(0) && body.written == Some(0)
    then Some(PendingPaste(Consent(p.life.generation, body.operationId, now + 30000),
                           p.input.inflight[k].entry.pasteData.value, |p.input.outcomes|))
    else p.input.pending
  }

  lemma ConsentGrantedExactly(p: Plane, q: nat, now: nat)
    requires PlaneOk(p) && Dispatches(p, q) && ResultPasses(p, p.route.Queue(q).items[0])
    ensures Dispatch(p, q, now).input.pending == PendingAfterResult(p, p.route.Queue(q).items[0].event.body, now)
  {
    hide OpeningsOk, QueuesOk, SerialOk, OutputOk, DetachOk, ReattachOk, LinkOk, SettleResult, PendingAfterResult,
         GeometryOk, BytesOk, ChainsOk, OrderOk, FenceOk, SlotOk, UnsafeOk, WindowOk;
    var body := p.route.Queue(q).items[0].event.body;
    var gate := GateOf(p.life, p.route);
    ResultGrants(p, gate, body, now);
  }

  lemma ResultGrants(p: Plane, gate: Gate, body: Body, now: nat)
    requires body.InputResult? && InputOk(p.input, gate) && gate.generation == p.life.generation && gate.live
    ensures SettleResult(p.input, gate, body.operationId, body.name, body.accepted, body.written, now).pending
      == PendingAfterResult(p, body, now)
  {
    hide GeometryOk, BytesOk, ChainsOk, OrderOk, FenceOk, SlotOk, UnsafeOk, Pump;
    var k := IndexOf(p.input.inflight, body.operationId);
    if k < |p.input.inflight| {
      var item := p.input.inflight[k];
      assert item.generation == gate.generation && Holds(p.input, item);
      PumpKeepsLogs(Record(p.input, gate, item, body.name, body.accepted, body.written, now), gate);
    }
  }

  /** Confirming admits the pending bytes as one unsafe paste exactly when the consent is the pending
      one, its attachment is current, it has not expired, and the freed bytes leave room in the queue. */
  lemma ConfirmAdmitsExactly(p: Plane, consent: Consent, now: nat)
    ensures |Confirm(p, consent, now).input.confirmed| > |p.input.confirmed| <==>
      && p.input.pending.Some? && p.input.pending.value.consent == consent
      && !p.life.detached && consent.generation == p.life.generation && now < consent.expiresAt
      && |p.input.queued| < 256
      && QueuedBytes(p.input.queued) + InflightBytes(p.input.inflight) + |p.input.pending.value.data| <= MAX_QUEUED_INPUT_BYTES
  {
    hide EnsureAttached;
    if p.input.pending.Some? {
      var q := p.(input := AdmitConfirmed(p.input));
      AttachKeepsConfirmed(q);
    }
  }

  lemma AttachKeepsConfirmed(q: Plane)
    ensures PumpPlane(EnsureAttached(q)).input.confirmed == q.input.confirmed
  {
    var r := EnsureAttached(q);
    PumpKeepsLogs(r.input, GateOf(r.life, r.route));
  }
}
