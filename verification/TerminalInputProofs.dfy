/** What every input operation keeps. The invariant is a conjunction of independent parts, each
    proved kept by the primitive updates and then lifted to the operations. */
module TerminalInputProofs {
  import opened Wrappers
  import opened TerminalInput

  // ---------------------------------------------------------------------------
  // Window: at most 32 operations, all of this attachment, in increasing id order.
  // ---------------------------------------------------------------------------

  ghost predicate Ascending(inflight: seq<Inflight>) {
    forall j, k :: 0 <= j < k < |inflight| ==> inflight[j].operationId < inflight[k].operationId
  }

  ghost predicate WindowOk(inflight: seq<Inflight>, next: nat, gate: Gate) {
    match gate
    case Gate(generation, _, stream, _, _) =>
      && |inflight| <= MAX_INFLIGHT_INPUT_OPERATIONS
      && 1 <= next
      && (forall k :: 0 <= k < |inflight| ==>
            inflight[k].generation == generation && 1 <= inflight[k].operationId < next)
      && Ascending(inflight)
      && (stream.None? ==> inflight == [])
  }

  // ---------------------------------------------------------------------------
  // Conservation: every ticket ever issued is queued, in flight, settled or released, once.
  // ---------------------------------------------------------------------------

  ghost function QueuedTickets(queued: seq<Entry>): seq<nat> {
    seq(|queued|, k requires 0 <= k < |queued| => queued[k].ticket)
  }

  ghost function InflightTickets(inflight: seq<Inflight>): seq<nat> {
    seq(|inflight|, k requires 0 <= k < |inflight| => inflight[k].entry.ticket)
  }

  ghost function SettledTickets(outcomes: seq<Outcome>): seq<nat> {
    seq(|outcomes|, k requires 0 <= k < |outcomes| => outcomes[k].entry.ticket)
  }

  ghost function Issued(n: nat): multiset<nat> {
    if n == 0 then multiset{} else Issued(n - 1) + multiset{n - 1}
  }

  ghost function Accounted(queued: seq<Entry>, inflight: seq<Inflight>,
                           outcomes: seq<Outcome>, released: seq<nat>): multiset<nat> {
    multiset(QueuedTickets(queued)) + multiset(InflightTickets(inflight))
    + multiset(SettledTickets(outcomes)) + multiset(released)
  }

  ghost predicate TicketsOk(i: Input) {
    Accounted(i.queued, i.inflight, i.outcomes, i.released) == Issued(i.nextTicket)
  }

  lemma {:induction false} IssuedOnce(n: nat, t: nat)
    ensures Issued(n)[t] == if t < n then 1 else 0
  {
    if n != 0 { IssuedOnce(n - 1, t); }
  }

  // ---------------------------------------------------------------------------
  // Geometry slot and bytes.
  // ---------------------------------------------------------------------------

  ghost function ResizeCount(inflight: seq<Inflight>): nat {
    if inflight == [] then 0
    else ResizeCount(inflight[..|inflight| - 1]) + (if inflight[|inflight| - 1].entry.op.Resize? then 1 else 0)
  }

  ghost predicate GeometryOk(queued: seq<Entry>, inflight: seq<Inflight>, slot: Option<nat>, nextTicket: nat) {
    && (forall k :: 0 <= k < |queued| ==> !queued[k].op.Resize? && slot != Some(queued[k].ticket))
    && (forall k :: 0 <= k < |inflight| ==> (inflight[k].entry.op.Resize? <==> slot == Some(inflight[k].entry.ticket)))
    && match slot
       case None => ResizeCount(inflight) == 0
       case Some(ticket) => ResizeCount(inflight) == 1 && ticket < nextTicket
  }

  /** The link that occupies the RESIZE slot is a RESIZE. */
  ghost predicate SlotOk(chain: seq<Job>, slot: Option<nat>) {
    forall k :: 0 <= k < |chain| && !chain[k].item.entry.op.Resize? ==> slot != Some(chain[k].item.entry.ticket)
  }

  ghost predicate BytesOk(queued: seq<Entry>, inflight: seq<Inflight>, pending: Option<PendingPaste>) {
    && |queued| <= MAX_QUEUED_INPUT_OPERATIONS
    && QueuedBytes(queued) + InflightBytes(inflight) + ConsentBytes(pending)
       <= MAX_QUEUED_INPUT_BYTES + RESIZE_BODY_BYTES * ResizeCount(inflight)
  }

  lemma {:induction false} InflightConcat(a: seq<Inflight>, b: seq<Inflight>)
    ensures InflightBytes(a + b) == InflightBytes(a) + InflightBytes(b)
    ensures ResizeCount(a + b) == ResizeCount(a) + ResizeCount(b)
  {
    if b == [] {
      assert a + b == a;
    } else {
      assert (a + b)[..|a + b| - 1] == a + b[..|b| - 1];
      InflightConcat(a, b[..|b| - 1]);
    }
  }

  lemma {:induction false} QueuedConcat(a: seq<Entry>, b: seq<Entry>)
    ensures QueuedBytes(a + b) == QueuedBytes(a) + QueuedBytes(b)
  {
    if b == [] {
      assert a + b == a;
    } else {
      assert (a + b)[..|a + b| - 1] == a + b[..|b| - 1];
      QueuedConcat(a, b[..|b| - 1]);
    }
  }

  lemma InflightOne(item: Inflight)
    ensures InflightBytes([item]) == item.entry.op.BodyBytes()
    ensures ResizeCount([item]) == if item.entry.op.Resize? then 1 else 0
  {
    assert [item][..0] == [];
  }

  lemma QueuedOne(entry: Entry)
    ensures QueuedBytes([entry]) == entry.op.BodyBytes()
  {
    assert [entry][..0] == [];
  }

  /** Taking position k out of the window takes exactly its bytes and its RESIZE mark out. */
  lemma InflightRemove(s: seq<Inflight>, k: nat)
    requires k < |s|
    ensures InflightBytes(s) == InflightBytes(s[..k] + s[k + 1..]) + s[k].entry.op.BodyBytes()
    ensures ResizeCount(s) == ResizeCount(s[..k] + s[k + 1..]) + if s[k].entry.op.Resize? then 1 else 0
  {
    assert s == s[..k] + ([s[k]] + s[k + 1..]);
    InflightConcat(s[..k], [s[k]] + s[k + 1..]);
    InflightConcat([s[k]], s[k + 1..]);
    InflightConcat(s[..k], s[k + 1..]);
    InflightOne(s[k]);
  }

  // ---------------------------------------------------------------------------
  // Chains and wires.
  // ---------------------------------------------------------------------------

  /** Frame b may follow frame a on one stream. */
  ghost predicate Follows(a: WireFrame, b: WireFrame) {
    || (a.part.Data? && b.item == a.item && b.part == Data(a.part.index + 1)
        && a.part.index + 1 < a.item.entry.op.FrameCount())
    || (a.part.Data? && 0 < a.part.index && a.item.entry.op.Paste? && b.item == a.item && b.part == Abort)
    || (a.item.operationId < b.item.operationId && b.part == Data(0))
  }

  ghost predicate WireOk(wire: seq<WireFrame>) {
    && (wire != [] ==> wire[0].part == Data(0))
    && (forall k :: 0 < k < |wire| ==> Follows(wire[k - 1], wire[k]))
  }

  ghost predicate ChainOk(chain: seq<Job>, g: nat) {
    && (forall k :: 0 <= k < |chain| ==> chain[k].item.generation == g)
    && (forall k :: 0 < k < |chain| ==> chain[k].phase == Waiting)
    && (forall j, k :: 0 <= j < k < |chain| ==> chain[j].item.operationId < chain[k].item.operationId)
  }

  /** Where the wire stands relative to the head link. */
  ghost predicate Linked(chain: seq<Job>, wire: seq<WireFrame>) {
    chain != [] ==>
      var head := chain[0];
      match head.phase
      case Waiting => wire != [] ==> wire[|wire| - 1].item.operationId < head.item.operationId
      case Sending(k) =>
        && wire != [] && wire[|wire| - 1] == WireFrame(head.item, Data(k))
        && k < head.item.entry.op.FrameCount()
      case _ => wire != [] ==> wire[|wire| - 1].item.operationId <= head.item.operationId
  }

  ghost predicate Below(chain: seq<Job>, wire: seq<WireFrame>, bound: nat) {
    && (forall k :: 0 <= k < |chain| ==> chain[k].item.operationId < bound)
    && (wire != [] ==> wire[|wire| - 1].item.operationId < bound)
  }

  ghost predicate StreamOk(chain: seq<Job>, wire: seq<WireFrame>, g: nat) {
    ChainOk(chain, g) && WireOk(wire) && Linked(chain, wire)
  }

  ghost predicate ChainsOk(chains: map<nat, seq<Job>>, wires: map<nat, seq<WireFrame>>, next: nat, gate: Gate) {
    match gate
    case Gate(generation, _, stream, _, _) =>
      && (forall g: nat :: StreamOk(Of(chains, g), Of(wires, g), g))
      && (forall g: nat :: g > generation || (g == generation && stream.None?) ==>
            Of(chains, g) == [] && Of(wires, g) == [])
      && Below(Of(chains, generation), Of(wires, generation), next)
  }

  // ---------------------------------------------------------------------------
  // Admission order of everything but RESIZE.
  // ---------------------------------------------------------------------------

  /** Tickets at most `limit` (strictly below when nothing of it was sent), except for RESIZE. */
  ghost predicate JobsBefore(chain: seq<Job>, limit: nat) {
    forall k :: 0 <= k < |chain| && !chain[k].item.entry.op.Resize? ==> chain[k].item.entry.ticket < limit
  }

  ghost predicate FramesBefore(wire: seq<WireFrame>, limit: nat) {
    forall k :: 0 <= k < |wire| && !wire[k].item.entry.op.Resize? ==> wire[k].item.entry.ticket < limit
  }

  ghost predicate StreamInOrder(chain: seq<Job>, wire: seq<WireFrame>) {
    && (forall j, k :: 0 <= j < k < |chain| && !chain[j].item.entry.op.Resize? && !chain[k].item.entry.op.Resize? ==>
          chain[j].item.entry.ticket < chain[k].item.entry.ticket)
    && (forall j, k :: 0 <= j < k < |wire| && !wire[j].item.entry.op.Resize? && !wire[k].item.entry.op.Resize? ==>
          wire[j].item.entry.ticket <= wire[k].item.entry.ticket)
    && (forall k :: 0 <= k < |chain| && !chain[k].item.entry.op.Resize? ==>
          FramesBefore(wire, chain[k].item.entry.ticket + 1))
  }

  ghost predicate QueueInOrder(queued: seq<Entry>, nextTicket: nat) {
    && (forall k :: 0 <= k < |queued| ==> queued[k].ticket < nextTicket)
    && (forall j, k :: 0 <= j < k < |queued| ==> queued[j].ticket < queued[k].ticket)
  }

  ghost predicate OrderOk(queued: seq<Entry>, nextTicket: nat,
                          chains: map<nat, seq<Job>>, wires: map<nat, seq<WireFrame>>, generation: nat) {
    && (forall g: nat :: StreamInOrder(Of(chains, g), Of(wires, g)))
    && QueueInOrder(queued, nextTicket)
    && JobsBefore(Of(chains, generation), nextTicket)
    && FramesBefore(Of(wires, generation), nextTicket)
    && (forall k :: 0 <= k < |queued| ==>
          && JobsBefore(Of(chains, generation), queued[k].ticket)
          && FramesBefore(Of(wires, generation), queued[k].ticket))
  }

  // ---------------------------------------------------------------------------
  // The fence between attachments.
  // ---------------------------------------------------------------------------

  ghost predicate ChainBefore(chain: seq<Job>, limit: nat) {
    forall k :: 0 <= k < |chain| ==> chain[k].item.entry.ticket < limit
  }

  /** A link of another generation is older than everything still queued or in flight. */
  ghost predicate FenceOk(chains: map<nat, seq<Job>>, queued: seq<Entry>, inflight: seq<Inflight>,
                          nextTicket: nat, generation: nat) {
    && (forall g: nat :: ChainBefore(Of(chains, g), nextTicket))
    && (forall g: nat, k :: g != generation && 0 <= k < |queued| ==> ChainBefore(Of(chains, g), queued[k].ticket))
    && (forall g: nat, k :: g != generation && 0 <= k < |inflight| ==> ChainBefore(Of(chains, g), inflight[k].entry.ticket))
    && (forall k :: 0 <= k < |queued| ==> queued[k].ticket < nextTicket)
  }

  // ---------------------------------------------------------------------------
  // Unsafe pastes.
  // ---------------------------------------------------------------------------

  /** Outcome record r is Core's refusal of exactly these bytes on attachment g, with nothing accepted or written. */
  ghost predicate RefusedBytes(outcomes: seq<Outcome>, r: nat, data: Bytes, g: nat) {
    && r < |outcomes|
    && outcomes[r].name == RejectedUnsafePaste
    && outcomes[r].accepted == Some(0) && outcomes[r].written == Some(0)
    && outcomes[r].generation == g
    && outcomes[r].entry.op == Paste(data, false)
  }

  /** An unsafe paste carries the confirmation that admitted it, and that confirmation is its own. */
  ghost predicate Authorized(e: Entry, confirmed: seq<Confirmation>, outcomes: seq<Outcome>, g: nat) {
    e.op.Unsafe() ==>
      && e.authority.Some? && e.authority.value < |confirmed|
      && confirmed[e.authority.value].ticket == e.ticket
      && RefusedBytes(outcomes, confirmed[e.authority.value].rejection, e.op.data, g)
  }

  /** A consent can only come from the safe form of the paste it retains. */
  ghost predicate PasteDataOk(e: Entry) {
    e.pasteData.Some? ==> e.op == Paste(e.pasteData.value, false)
  }

  ghost predicate JobsAuthorized(chain: seq<Job>, confirmed: seq<Confirmation>, outcomes: seq<Outcome>, g: nat) {
    forall k :: 0 <= k < |chain| ==> Authorized(chain[k].item.entry, confirmed, outcomes, g)
  }

  ghost predicate FramesAuthorized(wire: seq<WireFrame>, confirmed: seq<Confirmation>, outcomes: seq<Outcome>, g: nat) {
    forall k :: 0 <= k < |wire| ==> Authorized(wire[k].item.entry, confirmed, outcomes, g)
  }

  ghost predicate ConfirmedOnce(confirmed: seq<Confirmation>, outcomes: seq<Outcome>) {
    && (forall k :: 0 <= k < |confirmed| ==> confirmed[k].rejection < |outcomes|)
    && (forall j, k :: 0 <= j < k < |confirmed| ==> confirmed[j].rejection < confirmed[k].rejection)
  }

  ghost predicate PendingOk(pending: Option<PendingPaste>, pasteAttempt: nat,
                            confirmed: seq<Confirmation>, outcomes: seq<Outcome>, gate: Gate) {
    pending.Some? ==>
      var p := pending.value;
      && gate.stream.Some? && gate.live
      && p.consent.generation == gate.generation
      && RefusedBytes(outcomes, p.rejection, p.data, gate.generation)
      && outcomes[p.rejection].operationId == Some(p.consent.operationId)
      && outcomes[p.rejection].entry.pasteAttempt == pasteAttempt
      && (forall k :: 0 <= k < |confirmed| ==> confirmed[k].rejection < p.rejection)
  }

  ghost predicate WindowPastesOk(inflight: seq<Inflight>) {
    forall k :: 0 <= k < |inflight| ==> PasteDataOk(inflight[k].entry)
  }

  ghost predicate QueueAuthorized(queued: seq<Entry>, confirmed: seq<Confirmation>, outcomes: seq<Outcome>, gate: Gate) {
    forall k :: 0 <= k < |queued| ==>
      && Authorized(queued[k], confirmed, outcomes, gate.generation)
      && PasteDataOk(queued[k])
      && (queued[k].op.Unsafe() ==> gate.stream.Some?)
  }

  ghost predicate SentAuthorized(chains: map<nat, seq<Job>>, wires: map<nat, seq<WireFrame>>,
                                 confirmed: seq<Confirmation>, outcomes: seq<Outcome>) {
    && (forall g: nat :: JobsAuthorized(Of(chains, g), confirmed, outcomes, g))
    && (forall g: nat :: FramesAuthorized(Of(wires, g), confirmed, outcomes, g))
  }

  ghost predicate UnsafeOk(i: Input, gate: Gate) {
    match gate
    case Gate(_, _, _, _, _) =>
      && SentAuthorized(i.chains, i.wires, i.confirmed, i.outcomes)
      && QueueAuthorized(i.queued, i.confirmed, i.outcomes, gate)
      && WindowPastesOk(i.inflight)
      && ConfirmedOnce(i.confirmed, i.outcomes)
      && PendingOk(i.pending, i.pasteAttempt, i.confirmed, i.outcomes, gate)
  }

  /** The whole input invariant, by part. */
  ghost predicate InputOk(i: Input, gate: Gate) {
    match gate
    case Gate(generation, _, _, _, _) =>
      && WindowOk(i.inflight, i.nextOperationId, gate)
      && TicketsOk(i)
      && GeometryOk(i.queued, i.inflight, i.geometryOperation, i.nextTicket)
      && BytesOk(i.queued, i.inflight, i.pending)
      && ChainsOk(i.chains, i.wires, i.nextOperationId, gate)
      && SlotOk(Of(i.chains, generation), i.geometryOperation)
      && OrderOk(i.queued, i.nextTicket, i.chains, i.wires, generation)
      && FenceOk(i.chains, i.queued, i.inflight, i.nextTicket, generation)
      && UnsafeOk(i, gate)
  }

  // ---------------------------------------------------------------------------
  // Window updates.
  // ---------------------------------------------------------------------------

  /** One more operation at the end of the window. */
  lemma WindowAppend(inflight: seq<Inflight>, next: nat, gate: Gate, entry: Entry)
    requires WindowOk(inflight, next, gate) && gate.stream.Some? && |inflight| < MAX_INFLIGHT_INPUT_OPERATIONS
    ensures WindowOk(inflight + [Inflight(entry, next, gate.generation)], next + 1, gate)
  {
  }

  /** One more waiting link at the end of this generation's chain. */
  lemma ChainsAppend(chains: map<nat, seq<Job>>, wires: map<nat, seq<WireFrame>>, next: nat, gate: Gate, entry: Entry)
    requires ChainsOk(chains, wires, next, gate) && gate.stream.Some?
    ensures ChainsOk(Linked1(chains, gate.generation, Inflight(entry, next, gate.generation)), wires, next + 1, gate)
  {
    var g := gate.generation;
    var item := Inflight(entry, next, g);
    var grown := Linked1(chains, g, item);
    assert Of(grown, g) == Of(chains, g) + [Job(item, Waiting)];
    assert StreamOk(Of(chains, g), Of(wires, g), g);
    forall h: nat | h != g ensures StreamOk(Of(grown, h), Of(wires, h), h) {
      assert StreamOk(Of(chains, h), Of(wires, h), h);
    }
  }

  ghost function Linked1(chains: map<nat, seq<Job>>, g: nat, item: Inflight): map<nat, seq<Job>> {
    chains[g := Of(chains, g) + [Job(item, Waiting)]]
  }

  lemma TicketsAppend(queued: seq<Entry>, inflight: seq<Inflight>, outcomes: seq<Outcome>, released: seq<nat>, item: Inflight)
    ensures Accounted(queued, inflight + [item], outcomes, released)
         == Accounted(queued, inflight, outcomes, released) + multiset{item.entry.ticket}
  {
    assert InflightTickets(inflight + [item]) == InflightTickets(inflight) + [item.entry.ticket];
  }

  lemma SentAppend(chains: map<nat, seq<Job>>, wires: map<nat, seq<WireFrame>>, confirmed: seq<Confirmation>,
                   outcomes: seq<Outcome>, g: nat, item: Inflight)
    requires SentAuthorized(chains, wires, confirmed, outcomes) && Authorized(item.entry, confirmed, outcomes, g)
    ensures SentAuthorized(Linked1(chains, g, item), wires, confirmed, outcomes)
  {
    forall h: nat ensures JobsAuthorized(Of(Linked1(chains, g, item), h), confirmed, outcomes, h) {
      assert JobsAuthorized(Of(chains, h), confirmed, outcomes, h);
    }
  }

  /** A chain that grows by one waiting link keeps the admission order when the link is due last. */
  lemma OrderAppend(chains: map<nat, seq<Job>>, wires: map<nat, seq<WireFrame>>, g: nat, item: Inflight)
    requires forall h: nat :: StreamInOrder(Of(chains, h), Of(wires, h))
    requires item.entry.op.Resize? || (JobsBefore(Of(chains, g), item.entry.ticket) && FramesBefore(Of(wires, g), item.entry.ticket))
    ensures forall h: nat :: StreamInOrder(Of(Linked1(chains, g, item), h), Of(wires, h))
  {
    var grown := Linked1(chains, g, item);
    assert StreamInOrder(Of(chains, g), Of(wires, g));
    assert StreamInOrder(Of(grown, g), Of(wires, g));
    forall h: nat | h != g ensures StreamInOrder(Of(grown, h), Of(wires, h)) {
      assert Of(grown, h) == Of(chains, h);
    }
  }

  function Dequeue(i: Input, g: nat): Input
    requires i.queued != []
  {
    Append(i.(queued := i.queued[1..]), g, i.queued[0])
  }

  lemma DequeueTickets(i: Input, g: nat)
    requires i.queued != [] && TicketsOk(i)
    ensures TicketsOk(Dequeue(i, g))
  {
    TicketsAppend(i.queued[1..], i.inflight, i.outcomes, i.released, Inflight(i.queued[0], i.nextOperationId, g));
    assert QueuedTickets(i.queued) == [i.queued[0].ticket] + QueuedTickets(i.queued[1..]);
  }

  lemma DequeueBytes(queued: seq<Entry>, inflight: seq<Inflight>, slot: Option<nat>, nextTicket: nat,
                     pending: Option<PendingPaste>, item: Inflight)
    requires queued != [] && GeometryOk(queued, inflight, slot, nextTicket) && BytesOk(queued, inflight, pending)
    requires item.entry == queued[0]
    ensures GeometryOk(queued[1..], inflight + [item], slot, nextTicket)
    ensures BytesOk(queued[1..], inflight + [item], pending)
  {
    assert queued == [queued[0]] + queued[1..];
    QueuedConcat([queued[0]], queued[1..]);
    QueuedOne(queued[0]);
    InflightConcat(inflight, [item]);
    InflightOne(item);
  }

  lemma DequeueOrder(queued: seq<Entry>, nextTicket: nat, chains: map<nat, seq<Job>>, wires: map<nat, seq<WireFrame>>,
                     g: nat, item: Inflight)
    requires queued != [] && OrderOk(queued, nextTicket, chains, wires, g) && item.entry == queued[0]
    ensures OrderOk(queued[1..], nextTicket, Linked1(chains, g, item), wires, g)
  {
    assert JobsBefore(Of(chains, g), queued[0].ticket) && FramesBefore(Of(wires, g), queued[0].ticket);
    OrderAppend(chains, wires, g, item);
    forall k | 0 <= k < |queued[1..]|
      ensures JobsBefore(Of(Linked1(chains, g, item), g), queued[1..][k].ticket)
      ensures FramesBefore(Of(wires, g), queued[1..][k].ticket)
    {
      assert JobsBefore(Of(chains, g), queued[k + 1].ticket) && FramesBefore(Of(wires, g), queued[k + 1].ticket);
    }
  }

  ghost predicate CanDequeue(i: Input, gate: Gate) {
    gate.Open() && i.queued != [] && |i.inflight| < MAX_INFLIGHT_INPUT_OPERATIONS
  }

  lemma DequeueWindow(i: Input, gate: Gate)
    requires InputOk(i, gate) && CanDequeue(i, gate)
    ensures var j := Dequeue(i, gate.generation);
      WindowOk(j.inflight, j.nextOperationId, gate) && ChainsOk(j.chains, j.wires, j.nextOperationId, gate)
  {
    WindowAppend(i.inflight, i.nextOperationId, gate, i.queued[0]);
    ChainsAppend(i.chains, i.wires, i.nextOperationId, gate, i.queued[0]);
  }

  lemma DequeueAccounts(i: Input, gate: Gate)
    requires InputOk(i, gate) && CanDequeue(i, gate)
    ensures var j := Dequeue(i, gate.generation);
      && GeometryOk(j.queued, j.inflight, j.geometryOperation, j.nextTicket)
      && BytesOk(j.queued, j.inflight, j.pending)
      && SlotOk(Of(j.chains, gate.generation), j.geometryOperation)
      && OrderOk(j.queued, j.nextTicket, j.chains, j.wires, gate.generation)
  {
    var item := Inflight(i.queued[0], i.nextOperationId, gate.generation);
    DequeueBytes(i.queued, i.inflight, i.geometryOperation, i.nextTicket, i.pending, item);
    DequeueOrder(i.queued, i.nextTicket, i.chains, i.wires, gate.generation, item);
  }

  /** A link joins this generation's chain, its operation the window. */
  lemma FenceAppend(chains: map<nat, seq<Job>>, queued: seq<Entry>, inflight: seq<Inflight>, nextTicket: nat,
                    g: nat, item: Inflight, rest: seq<Entry>, next: nat)
    requires FenceOk(chains, queued, inflight, nextTicket, g)
    requires (queued != [] && item.entry == queued[0] && rest == queued[1..] && next == nextTicket)
          || (item.entry.ticket == nextTicket && rest == queued && next == nextTicket + 1)
    ensures FenceOk(Linked1(chains, g, item), rest, inflight + [item], next, g)
  {
    var grown := Linked1(chains, g, item);
    forall h: nat ensures ChainBefore(Of(grown, h), next) {
      assert ChainBefore(Of(chains, h), nextTicket);
    }
    forall h: nat, k | h != g && 0 <= k < |inflight + [item]|
      ensures ChainBefore(Of(grown, h), (inflight + [item])[k].entry.ticket)
    {
      assert ChainBefore(Of(chains, h), nextTicket);
      if k == |inflight| {
        assert queued != [] ==> ChainBefore(Of(chains, h), queued[0].ticket);
      } else {
        assert ChainBefore(Of(chains, h), inflight[k].entry.ticket);
      }
    }
    forall h: nat, k | h != g && 0 <= k < |rest| ensures ChainBefore(Of(grown, h), rest[k].ticket) {
      assert ChainBefore(Of(chains, h), queued[if rest == queued then k else k + 1].ticket);
    }
  }

  lemma DequeueFence(i: Input, gate: Gate)
    requires InputOk(i, gate) && CanDequeue(i, gate)
    ensures var j := Dequeue(i, gate.generation);
      FenceOk(j.chains, j.queued, j.inflight, j.nextTicket, gate.generation)
  {
    hide WindowOk, GeometryOk, BytesOk, ChainsOk, OrderOk, UnsafeOk, FenceOk, SlotOk;
    var item := Inflight(i.queued[0], i.nextOperationId, gate.generation);
    FenceAppend(i.chains, i.queued, i.inflight, i.nextTicket, gate.generation, item, i.queued[1..], i.nextTicket);
  }

  lemma DequeueUnsafe(i: Input, gate: Gate)
    requires InputOk(i, gate) && CanDequeue(i, gate)
    ensures UnsafeOk(Dequeue(i, gate.generation), gate)
  {
    var item := Inflight(i.queued[0], i.nextOperationId, gate.generation);
    SentAppend(i.chains, i.wires, i.confirmed, i.outcomes, gate.generation, item);
  }

  lemma DequeueOk(i: Input, gate: Gate)
    requires InputOk(i, gate) && CanDequeue(i, gate)
    ensures InputOk(Dequeue(i, gate.generation), gate)
  {
    hide WindowOk, GeometryOk, BytesOk, ChainsOk, OrderOk, FenceOk, SlotOk, UnsafeOk;
    DequeueWindow(i, gate);
    DequeueTickets(i, gate.generation);
    DequeueAccounts(i, gate);
    DequeueFence(i, gate);
    DequeueUnsafe(i, gate);
  }

  /** No bin holds a ticket that was not issued yet. */
  lemma NotIssued(i: Input, t: nat)
    requires TicketsOk(i) && t >= i.nextTicket
    ensures t !in InflightTickets(i.inflight)
  {
    IssuedOnce(i.nextTicket, t);
    assert Accounted(i.queued, i.inflight, i.outcomes, i.released)[t] == 0;
  }

  lemma ResizeBytes(queued: seq<Entry>, inflight: seq<Inflight>, nextTicket: nat, pending: Option<PendingPaste>, item: Inflight)
    requires GeometryOk(queued, inflight, None, nextTicket) && BytesOk(queued, inflight, pending)
    requires item.entry.op.Resize? && item.entry.ticket == nextTicket
    requires nextTicket !in InflightTickets(inflight) && QueueInOrder(queued, nextTicket)
    ensures GeometryOk(queued, inflight + [item], Some(nextTicket), nextTicket + 1)
    ensures BytesOk(queued, inflight + [item], pending)
  {
    InflightConcat(inflight, [item]);
    InflightOne(item);
    forall k | 0 <= k < |inflight| ensures inflight[k].entry.ticket != nextTicket {
      assert InflightTickets(inflight)[k] == inflight[k].entry.ticket;
    }
  }

  lemma ResizeOrder(queued: seq<Entry>, nextTicket: nat, chains: map<nat, seq<Job>>, wires: map<nat, seq<WireFrame>>,
                    g: nat, item: Inflight)
    requires OrderOk(queued, nextTicket, chains, wires, g) && item.entry.op.Resize?
    ensures OrderOk(queued, nextTicket + 1, Linked1(chains, g, item), wires, g)
  {
    OrderAppend(chains, wires, g, item);
    forall k | 0 <= k < |queued| ensures JobsBefore(Of(Linked1(chains, g, item), g), queued[k].ticket) {
      assert JobsBefore(Of(chains, g), queued[k].ticket);
    }
  }

  lemma SendGeometryWindow(i: Input, gate: Gate)
    requires InputOk(i, gate) && GeometryDue(i, gate)
    ensures var j := SendGeometry(i, gate);
      WindowOk(j.inflight, j.nextOperationId, gate) && ChainsOk(j.chains, j.wires, j.nextOperationId, gate)
  {
    var entry := SendGeometry(i, gate).inflight[|i.inflight|].entry;
    WindowAppend(i.inflight, i.nextOperationId, gate, entry);
    ChainsAppend(i.chains, i.wires, i.nextOperationId, gate, entry);
  }

  lemma SendGeometryTickets(i: Input, gate: Gate)
    requires TicketsOk(i) && GeometryDue(i, gate)
    ensures TicketsOk(SendGeometry(i, gate))
  {
    TicketsAppend(i.queued, i.inflight, i.outcomes, i.released, SendGeometry(i, gate).inflight[|i.inflight|]);
  }

  lemma SendGeometryBytes(i: Input, gate: Gate)
    requires InputOk(i, gate) && GeometryDue(i, gate)
    ensures var j := SendGeometry(i, gate);
      GeometryOk(j.queued, j.inflight, j.geometryOperation, j.nextTicket) && BytesOk(j.queued, j.inflight, j.pending)
  {
    NotIssued(i, i.nextTicket);
    ResizeBytes(i.queued, i.inflight, i.nextTicket, i.pending, SendGeometry(i, gate).inflight[|i.inflight|]);
  }

  lemma SendGeometryFence(i: Input, gate: Gate)
    requires InputOk(i, gate) && GeometryDue(i, gate)
    ensures var j := SendGeometry(i, gate);
      FenceOk(j.chains, j.queued, j.inflight, j.nextTicket, gate.generation)
  {
    hide WindowOk, GeometryOk, BytesOk, ChainsOk, OrderOk, UnsafeOk, FenceOk, SlotOk;
    FenceAppend(i.chains, i.queued, i.inflight, i.nextTicket, gate.generation,
                SendGeometry(i, gate).inflight[|i.inflight|], i.queued, i.nextTicket + 1);
  }

  lemma SendGeometryUnsafe(i: Input, gate: Gate)
    requires InputOk(i, gate) && GeometryDue(i, gate)
    ensures var j := SendGeometry(i, gate);
      && UnsafeOk(j, gate)
      && SlotOk(Of(j.chains, gate.generation), j.geometryOperation)
      && OrderOk(j.queued, j.nextTicket, j.chains, j.wires, gate.generation)
  {
    hide WindowOk, BytesOk, ChainsOk, FenceOk;
    var item := SendGeometry(i, gate).inflight[|i.inflight|];
    ResizeOrder(i.queued, i.nextTicket, i.chains, i.wires, gate.generation, item);
    SentAppend(i.chains, i.wires, i.confirmed, i.outcomes, gate.generation, item);
  }

  lemma SendGeometryOk(i: Input, gate: Gate)
    requires InputOk(i, gate)
    ensures InputOk(SendGeometry(i, gate), gate)
  {
    hide WindowOk, GeometryOk, BytesOk, ChainsOk, OrderOk, FenceOk, SlotOk, UnsafeOk;
    if GeometryDue(i, gate) {
      SendGeometryWindow(i, gate);
      SendGeometryTickets(i, gate);
      SendGeometryBytes(i, gate);
      SendGeometryFence(i, gate);
      SendGeometryUnsafe(i, gate);
    }
  }

  lemma {:induction false} FillOk(i: Input, gate: Gate)
    requires InputOk(i, gate) && gate.Open()
    ensures InputOk(Fill(i, gate.generation), gate)
    decreases |i.queued|
  {
    hide InputOk;
    if |i.inflight| < MAX_INFLIGHT_INPUT_OPERATIONS && i.queued != [] {
      DequeueOk(i, gate);
      FillOk(Dequeue(i, gate.generation), gate);
    }
  }

  lemma PumpOk(i: Input, gate: Gate)
    requires InputOk(i, gate)
    ensures InputOk(Pump(i, gate), gate)
  {
    hide InputOk;
    if gate.Open() {
      SendGeometryOk(i, gate);
      FillOk(SendGeometry(i, gate), gate);
    }
  }

  // ---------------------------------------------------------------------------
  // Admission and consent.
  // ---------------------------------------------------------------------------

  /** Longer logs keep every authorization. */
  lemma AuthorizedGrows(chains: map<nat, seq<Job>>, wires: map<nat, seq<WireFrame>>,
                        confirmed: seq<Confirmation>, outcomes: seq<Outcome>,
                        moreConfirmed: seq<Confirmation>, moreOutcomes: seq<Outcome>)
    requires SentAuthorized(chains, wires, confirmed, outcomes)
    ensures SentAuthorized(chains, wires, confirmed + moreConfirmed, outcomes + moreOutcomes)
  {
    forall g: nat
      ensures JobsAuthorized(Of(chains, g), confirmed + moreConfirmed, outcomes + moreOutcomes, g)
      ensures FramesAuthorized(Of(wires, g), confirmed + moreConfirmed, outcomes + moreOutcomes, g)
    {
      assert JobsAuthorized(Of(chains, g), confirmed, outcomes, g);
      assert FramesAuthorized(Of(wires, g), confirmed, outcomes, g);
    }
  }

  lemma EnqueueTickets(i: Input, e: Entry)
    requires TicketsOk(i) && e.ticket == i.nextTicket
    ensures TicketsOk(Enqueue(i, e))
  {
    assert QueuedTickets(i.queued + [e]) == QueuedTickets(i.queued) + [e.ticket];
  }

  lemma EnqueueAccounts(i: Input, gate: Gate, e: Entry)
    requires InputOk(i, gate) && Admits(i, e.op) && e.ticket == i.nextTicket && !e.op.Resize?
    ensures var j := Enqueue(i, e);
      && GeometryOk(j.queued, j.inflight, j.geometryOperation, j.nextTicket)
      && BytesOk(j.queued, j.inflight, j.pending)
  {
    QueuedConcat(i.queued, [e]);
    QueuedOne(e);
  }

  lemma EnqueueOrder(queued: seq<Entry>, nextTicket: nat, chains: map<nat, seq<Job>>, wires: map<nat, seq<WireFrame>>,
                     generation: nat, e: Entry)
    requires OrderOk(queued, nextTicket, chains, wires, generation) && e.ticket == nextTicket
    ensures OrderOk(queued + [e], nextTicket + 1, chains, wires, generation)
  {
  }

  lemma EnqueueFence(chains: map<nat, seq<Job>>, queued: seq<Entry>, inflight: seq<Inflight>,
                     nextTicket: nat, generation: nat, e: Entry)
    requires FenceOk(chains, queued, inflight, nextTicket, generation) && e.ticket == nextTicket
    ensures FenceOk(chains, queued + [e], inflight, nextTicket + 1, generation)
  {
    forall g: nat ensures ChainBefore(Of(chains, g), nextTicket + 1) {
      assert ChainBefore(Of(chains, g), nextTicket);
    }
  }

  lemma EnqueueOk(i: Input, gate: Gate, e: Entry)
    requires InputOk(i, gate) && Admits(i, e.op) && e.ticket == i.nextTicket && !e.op.Resize?
    requires PasteDataOk(e) && Authorized(e, i.confirmed, i.outcomes, gate.generation)
    requires e.op.Unsafe() ==> gate.stream.Some?
    ensures InputOk(Enqueue(i, e), gate)
  {
    hide WindowOk, GeometryOk, BytesOk, ChainsOk, OrderOk, FenceOk, SlotOk;
    EnqueueTickets(i, e);
    EnqueueAccounts(i, gate, e);
    EnqueueOrder(i.queued, i.nextTicket, i.chains, i.wires, gate.generation, e);
    EnqueueFence(i.chains, i.queued, i.inflight, i.nextTicket, gate.generation, e);
    assert UnsafeOk(Enqueue(i, e), gate);
  }

  lemma RefuseOk(i: Input, gate: Gate, reason: LocalRefusal)
    requires InputOk(i, gate)
    ensures InputOk(Refuse(i, reason), gate)
  {
    assert UnsafeOk(Refuse(i, reason), gate);
  }

  lemma AdmitInputOk(i: Input, gate: Gate, op: Operation, requestedBytes: nat)
    requires InputOk(i, gate) && !op.Resize? && !op.Paste?
    ensures InputOk(AdmitInput(i, op, requestedBytes), gate)
  {
    if Admits(i, op) {
      EnqueueOk(i, gate, Entry(i.nextTicket, op, requestedBytes, None, 0, None));
    } else {
      RefuseOk(i, gate, QueueBounds);
    }
  }

  lemma ReleaseConsentOk(i: Input, gate: Gate)
    requires InputOk(i, gate)
    ensures InputOk(ReleaseConsent(i), gate) && InputOk(BeginPaste(i), gate)
  {
    assert UnsafeOk(ReleaseConsent(i), gate);
    assert UnsafeOk(BeginPaste(i), gate);
  }

  lemma AdmitPasteOk(i: Input, gate: Gate, data: Bytes)
    requires InputOk(i, gate)
    ensures InputOk(AdmitPaste(i, data), gate)
  {
    if Admits(i, Paste(data, false)) {
      EnqueueOk(i, gate, Entry(i.nextTicket, Paste(data, false), |data|, Some(data), i.pasteAttempt, None));
    } else {
      RefuseOk(i, gate, QueueBounds);
    }
  }

  function Confirming(i: Input): Input
    requires i.pending.Some?
  {
    ReleaseConsent(i).(confirmed := i.confirmed + [Confirmation(i.nextTicket, i.pending.value.rejection)])
  }

  lemma ConfirmingUnsafe(i: Input, gate: Gate)
    requires UnsafeOk(i, gate) && i.pending.Some?
    ensures UnsafeOk(Confirming(i), gate)
  {
    AuthorizedGrows(i.chains, i.wires, i.confirmed, i.outcomes,
                    [Confirmation(i.nextTicket, i.pending.value.rejection)], []);
    assert i.outcomes + [] == i.outcomes;
  }

  lemma ConfirmingOk(i: Input, gate: Gate)
    requires InputOk(i, gate) && i.pending.Some?
    ensures InputOk(Confirming(i), gate)
  {
    ConfirmingUnsafe(i, gate);
  }

  ghost function ConfirmedEntry(i: Input): Entry
    requires i.pending.Some?
  {
    Entry(i.nextTicket, Paste(i.pending.value.data, true), |i.pending.value.data|, None, 0, Some(|i.confirmed|))
  }

  lemma AdmitConfirmedSplits(i: Input)
    requires i.pending.Some? && Admits(ReleaseConsent(i), Paste(i.pending.value.data, true))
    ensures AdmitConfirmed(i) == Enqueue(Confirming(i), ConfirmedEntry(i))
    ensures Admits(Confirming(i), Paste(i.pending.value.data, true))
  {
  }

  lemma ConfirmedEntryOk(i: Input, gate: Gate)
    requires UnsafeOk(i, gate) && i.pending.Some?
    ensures gate.stream.Some?
    ensures Authorized(ConfirmedEntry(i), Confirming(i).confirmed, i.outcomes, gate.generation)
  {
  }

  lemma AdmitConfirmedOk(i: Input, gate: Gate)
    requires InputOk(i, gate) && i.pending.Some?
    ensures InputOk(AdmitConfirmed(i), gate)
  {
    ReleaseConsentOk(i, gate);
    if Admits(ReleaseConsent(i), Paste(i.pending.value.data, true)) {
      AdmitConfirmedSplits(i);
      ConfirmingOk(i, gate);
      ConfirmedEntryOk(i, gate);
      EnqueueOk(Confirming(i), gate, ConfirmedEntry(i));
    } else {
      RefuseOk(ReleaseConsent(i), gate, QueueBounds);
    }
  }

  // ---------------------------------------------------------------------------
  // Settlement.
  // ---------------------------------------------------------------------------

  lemma WindowRemove(inflight: seq<Inflight>, next: nat, gate: Gate, k: nat)
    requires WindowOk(inflight, next, gate) && k < |inflight|
    ensures WindowOk(inflight[..k] + inflight[k + 1..], next, gate)
  {
  }

  lemma TicketsRemove(inflight: seq<Inflight>, k: nat)
    requires k < |inflight|
    ensures multiset(InflightTickets(inflight))
         == multiset(InflightTickets(inflight[..k] + inflight[k + 1..])) + multiset{inflight[k].entry.ticket}
  {
    var t := InflightTickets(inflight);
    assert InflightTickets(inflight[..k] + inflight[k + 1..]) == t[..k] + t[k + 1..];
    assert t == t[..k] + ([t[k]] + t[k + 1..]);
  }

  /** The window and the slot after position k leaves them. */
  lemma GeometryRemove(queued: seq<Entry>, inflight: seq<Inflight>, slot: Option<nat>, nextTicket: nat, k: nat)
    requires GeometryOk(queued, inflight, slot, nextTicket) && k < |inflight|
    ensures var freed := if slot == Some(inflight[k].entry.ticket) then None else slot;
      GeometryOk(queued, inflight[..k] + inflight[k + 1..], freed, nextTicket)
  {
    InflightRemove(inflight, k);
    var rest := inflight[..k] + inflight[k + 1..];
    if slot == Some(inflight[k].entry.ticket) {
      NoResize(rest);
    }
  }

  /** A window whose RESIZE count is zero holds no RESIZE. */
  lemma {:induction false} NoResize(inflight: seq<Inflight>)
    ensures ResizeCount(inflight) == 0 <==> forall k :: 0 <= k < |inflight| ==> !inflight[k].entry.op.Resize?
  {
    if inflight != [] {
      NoResize(inflight[..|inflight| - 1]);
    }
  }

  ghost function Held(i: Input, item: Inflight): Inflight
    requires Holds(i, item)
  {
    i.inflight[IndexOf(i.inflight, item.operationId)]
  }

  lemma WithoutFence(i: Input, g: nat, item: Inflight)
    requires FenceOk(i.chains, i.queued, i.inflight, i.nextTicket, g) && Holds(i, item)
    ensures FenceOk(i.chains, i.queued, Without(i, item).inflight, i.nextTicket, g)
  {
    var k := IndexOf(i.inflight, item.operationId);
    var rest := i.inflight[..k] + i.inflight[k + 1..];
    forall h: nat, j | h != g && 0 <= j < |rest| ensures ChainBefore(Of(i.chains, h), rest[j].entry.ticket) {
      assert rest[j] == i.inflight[if j < k then j else j + 1];
    }
  }

  lemma WithoutWindow(i: Input, gate: Gate, item: Inflight)
    requires WindowOk(i.inflight, i.nextOperationId, gate) && Holds(i, item)
    requires GeometryOk(i.queued, i.inflight, i.geometryOperation, i.nextTicket)
    ensures var j := Without(i, item);
      && GeometryOk(j.queued, j.inflight, j.geometryOperation, j.nextTicket)
      && WindowOk(j.inflight, j.nextOperationId, gate)
  {
    var k := IndexOf(i.inflight, item.operationId);
    WindowRemove(i.inflight, i.nextOperationId, gate, k);
    GeometryRemove(i.queued, i.inflight, i.geometryOperation, i.nextTicket, k);
  }

  /** The freed bytes are those of the operation held, and cover its RESIZE allowance. */
  lemma WithoutBytes(i: Input, item: Inflight)
    requires Holds(i, item)
    ensures var j := Without(i, item);
      && InflightBytes(j.inflight) + Held(i, item).entry.op.BodyBytes() == InflightBytes(i.inflight)
      && ResizeCount(i.inflight) == ResizeCount(j.inflight) + if Held(i, item).entry.op.Resize? then 1 else 0
  {
    InflightRemove(i.inflight, IndexOf(i.inflight, item.operationId));
  }

  /** What may settle: the operation Core answered, or any link whose send was given up. */
  ghost predicate Settles(i: Input, item: Inflight, name: OutcomeName) {
    && Holds(i, item)
    && (name == RejectedUnsafePaste ==> Held(i, item) == item)
  }

  lemma RecordTickets(i: Input, gate: Gate, item: Inflight, name: OutcomeName,
                      accepted: Option<nat>, written: Option<nat>, now: nat)
    requires TicketsOk(i) && Holds(i, item)
    ensures TicketsOk(Record(i, gate, item, name, accepted, written, now))
  {
    var o := Outcome(item.entry, Some(item.operationId), item.generation, name, accepted, written);
    TicketsRemove(i.inflight, IndexOf(i.inflight, item.operationId));
    assert SettledTickets(i.outcomes + [o]) == SettledTickets(i.outcomes) + [item.entry.ticket];
    OneMoves(multiset(QueuedTickets(i.queued)), multiset(InflightTickets(Without(i, item).inflight)),
             multiset(SettledTickets(i.outcomes)), multiset(i.released), item.entry.ticket);
  }

  lemma OneMoves(q: multiset<nat>, f: multiset<nat>, o: multiset<nat>, r: multiset<nat>, t: nat)
    ensures q + (f + multiset{t}) + o + r == q + f + (o + multiset{t}) + r == q + f + o + (r + multiset{t})
  {
  }

  lemma RecordWindow(i: Input, gate: Gate, item: Inflight, name: OutcomeName,
                     accepted: Option<nat>, written: Option<nat>, now: nat)
    requires InputOk(i, gate) && Holds(i, item)
    ensures var j := Record(i, gate, item, name, accepted, written, now);
      && GeometryOk(j.queued, j.inflight, j.geometryOperation, j.nextTicket)
      && WindowOk(j.inflight, j.nextOperationId, gate)
  {
    WithoutWindow(i, gate, item);
  }

  lemma RecordBytes(i: Input, gate: Gate, item: Inflight, name: OutcomeName,
                    accepted: Option<nat>, written: Option<nat>, now: nat)
    requires InputOk(i, gate) && Settles(i, item, name)
    ensures var j := Record(i, gate, item, name, accepted, written, now); BytesOk(j.queued, j.inflight, j.pending)
  {
    hide ChainsOk, OrderOk, FenceOk, SlotOk, TicketsOk, GeometryOk, QueuedBytes, InflightBytes;
    WithoutBytes(i, item);
    assert PasteDataOk(Held(i, item).entry);
  }

  lemma RecordUnsafe(i: Input, gate: Gate, item: Inflight, name: OutcomeName,
                     accepted: Option<nat>, written: Option<nat>, now: nat)
    requires InputOk(i, gate) && Settles(i, item, name)
    ensures UnsafeOk(Record(i, gate, item, name, accepted, written, now), gate)
  {
    var j := Record(i, gate, item, name, accepted, written, now);
    var o := Outcome(item.entry, Some(item.operationId), item.generation, name, accepted, written);
    AuthorizedGrows(i.chains, i.wires, i.confirmed, i.outcomes, [], [o]);
    assert i.confirmed + [] == i.confirmed;
    assert PasteDataOk(Held(i, item).entry);
    assert WindowPastesOk(j.inflight);
    assert PendingOk(j.pending, j.pasteAttempt, j.confirmed, j.outcomes, gate);
  }

  lemma RecordOk(i: Input, gate: Gate, item: Inflight, name: OutcomeName,
                 accepted: Option<nat>, written: Option<nat>, now: nat)
    requires InputOk(i, gate) && Settles(i, item, name)
    ensures InputOk(Record(i, gate, item, name, accepted, written, now), gate)
  {
    hide WindowOk, GeometryOk, BytesOk, ChainsOk, OrderOk, FenceOk, UnsafeOk;
    RecordTickets(i, gate, item, name, accepted, written, now);
    RecordWindow(i, gate, item, name, accepted, written, now);
    RecordBytes(i, gate, item, name, accepted, written, now);
    WithoutFence(i, gate.generation, item);
    RecordUnsafe(i, gate, item, name, accepted, written, now);
  }

  lemma SettleOk(i: Input, gate: Gate, item: Inflight, name: OutcomeName,
                 accepted: Option<nat>, written: Option<nat>, now: nat)
    requires InputOk(i, gate) && (Holds(i, item) ==> Settles(i, item, name))
    ensures InputOk(Settle(i, gate, item, name, accepted, written, now), gate)
  {
    hide InputOk;
    if Holds(i, item) {
      RecordOk(i, gate, item, name, accepted, written, now);
      PumpOk(Record(i, gate, item, name, accepted, written, now), gate);
    }
  }

  lemma SettleResultOk(i: Input, gate: Gate, operationId: nat, name: OutcomeName,
                       accepted: Option<nat>, written: Option<nat>, now: nat)
    requires InputOk(i, gate)
    ensures InputOk(SettleResult(i, gate, operationId, name, accepted, written, now), gate)
  {
    var k := IndexOf(i.inflight, operationId);
    if k < |i.inflight| && i.inflight[k].generation == gate.generation {
      SettleOk(i, gate, i.inflight[k], name, accepted, written, now);
    }
  }

  lemma ReleaseTickets(i: Input, item: Inflight)
    requires TicketsOk(i) && Holds(i, item)
    ensures TicketsOk(Release(i, item))
  {
    hide QueuedTickets, InflightTickets, SettledTickets, IndexOf;
    TicketsRemove(i.inflight, IndexOf(i.inflight, item.operationId));
    OneMoves(multiset(QueuedTickets(i.queued)), multiset(InflightTickets(Without(i, item).inflight)),
             multiset(SettledTickets(i.outcomes)), multiset(i.released), item.entry.ticket);
  }

  lemma ReleaseBytes(i: Input, item: Inflight)
    requires BytesOk(i.queued, i.inflight, i.pending) && Holds(i, item)
    ensures var j := Release(i, item); BytesOk(j.queued, j.inflight, j.pending)
  {
    WithoutBytes(i, item);
  }

  lemma ReleaseUnsafe(i: Input, gate: Gate, item: Inflight)
    requires UnsafeOk(i, gate) && Holds(i, item)
    ensures UnsafeOk(Release(i, item), gate)
  {
  }

  lemma ReleaseOk(i: Input, gate: Gate, item: Inflight)
    requires InputOk(i, gate)
    ensures InputOk(Release(i, item), gate)
  {
    hide WindowOk, GeometryOk, BytesOk, ChainsOk, OrderOk, FenceOk, UnsafeOk;
    if Holds(i, item) {
      WithoutWindow(i, gate, item);
      ReleaseTickets(i, item);
      ReleaseBytes(i, item);
      WithoutFence(i, gate.generation, item);
      ReleaseUnsafe(i, gate, item);
    }
  }

  // ---------------------------------------------------------------------------
  // Attachment changes.
  // ---------------------------------------------------------------------------

  lemma AbandonTickets(i: Input, g: nat)
    requires TicketsOk(i)
    ensures TicketsOk(Abandon(i, g))
  {
    var unknown, cancelled := UnknownOutcomes(i.inflight), CancelledOutcomes(i.queued, g);
    assert SettledTickets(i.outcomes + unknown + cancelled)
        == SettledTickets(i.outcomes) + InflightTickets(i.inflight) + QueuedTickets(i.queued);
    assert QueuedTickets([]) == [] && InflightTickets([]) == [];
    AllMove(multiset(QueuedTickets(i.queued)), multiset(InflightTickets(i.inflight)),
            multiset(SettledTickets(i.outcomes)), multiset(i.released));
  }

  lemma AllMove(q: multiset<nat>, f: multiset<nat>, o: multiset<nat>, r: multiset<nat>)
    ensures multiset{} + multiset{} + (o + f + q) + r == q + f + o + r
  {
  }

  lemma AbandonUnsafe(i: Input, gate: Gate, next: Gate)
    requires InputOk(i, gate)
    ensures UnsafeOk(Abandon(i, gate.generation), next)
  {
    var more := UnknownOutcomes(i.inflight) + CancelledOutcomes(i.queued, gate.generation);
    AuthorizedGrows(i.chains, i.wires, i.confirmed, i.outcomes, [], more);
    assert i.confirmed + [] == i.confirmed;
    assert i.outcomes + UnknownOutcomes(i.inflight) + CancelledOutcomes(i.queued, gate.generation) == i.outcomes + more;
  }

  /** A generation that nothing was ever appended to. */
  lemma FreshGeneration(i: Input, gate: Gate, next: Gate)
    requires InputOk(i, gate) && next.stream.None? && next.generation > gate.generation
    ensures ChainsOk(i.chains, i.wires, 1, next)
    ensures Of(i.chains, next.generation) == [] && Of(i.wires, next.generation) == []
  {
    hide WindowOk, GeometryOk, BytesOk, OrderOk, UnsafeOk, FenceOk, SlotOk;
    assert Of(i.chains, next.generation) == [] && Of(i.wires, next.generation) == [];
  }

  /** The queue waits for a generation whose chain and wire are still empty. */
  lemma FreshOrder(queued: seq<Entry>, nextTicket: nat, chains: map<nat, seq<Job>>, wires: map<nat, seq<WireFrame>>,
                   generation: nat, next: nat)
    requires OrderOk(queued, nextTicket, chains, wires, generation)
    requires Of(chains, next) == [] && Of(wires, next) == []
    ensures OrderOk(queued, nextTicket, chains, wires, next)
    ensures OrderOk([], nextTicket, chains, wires, next)
  {
  }

  lemma FreshFence(chains: map<nat, seq<Job>>, queued: seq<Entry>, inflight: seq<Inflight>,
                   nextTicket: nat, generation: nat, next: nat)
    requires FenceOk(chains, queued, inflight, nextTicket, generation)
    ensures Of(chains, generation) == [] ==> FenceOk(chains, queued, inflight, nextTicket, next)
    ensures FenceOk(chains, [], [], nextTicket, next)
  {
  }

  lemma NothingHeld(nextTicket: nat, next: Gate)
    ensures WindowOk([], 1, next) && GeometryOk([], [], None, nextTicket)
    ensures BytesOk([], [], None) && SlotOk([], None)
  {
  }

  lemma AbandonOk(i: Input, gate: Gate, next: Gate)
    requires InputOk(i, gate) && next.generation > gate.generation && next.stream.None?
    ensures InputOk(Abandon(i, gate.generation), next)
  {
    hide WindowOk, GeometryOk, BytesOk, ChainsOk, OrderOk, UnsafeOk, FenceOk, SlotOk;
    AbandonTickets(i, gate.generation);
    AbandonUnsafe(i, gate, next);
    FreshGeneration(i, gate, next);
    FreshOrder(i.queued, i.nextTicket, i.chains, i.wires, gate.generation, next.generation);
    FreshFence(i.chains, i.queued, i.inflight, i.nextTicket, gate.generation, next.generation);
    NothingHeld(i.nextTicket, next);
  }

  lemma NothingUnsafe(i: Input, gate: Gate, next: Gate)
    requires UnsafeOk(i, gate) && gate.stream.None?
    ensures UnsafeOk(i.(nextOperationId := 1), next)
  {
  }

  lemma ClosedChain(i: Input, gate: Gate)
    requires InputOk(i, gate) && gate.stream.None?
    ensures i.inflight == [] && i.geometryOperation.None? && Of(i.chains, gate.generation) == []
  {
    hide BytesOk, OrderOk, UnsafeOk, FenceOk, SlotOk;
  }

  /** A new attach: the generation moves on, ids restart at 1, the queue waits. */
  lemma AttachStartOk(i: Input, gate: Gate, next: Gate)
    requires InputOk(i, gate) && gate.stream.None?
    requires next.generation > gate.generation && next.stream.None?
    ensures InputOk(i.(nextOperationId := 1), next)
  {
    hide WindowOk, GeometryOk, BytesOk, ChainsOk, OrderOk, UnsafeOk, FenceOk, SlotOk;
    ClosedChain(i, gate);
    FreshGeneration(i, gate, next);
    FreshOrder(i.queued, i.nextTicket, i.chains, i.wires, gate.generation, next.generation);
    FreshFence(i.chains, i.queued, i.inflight, i.nextTicket, gate.generation, next.generation);
    NothingHeld(i.nextTicket, next);
    NothingUnsafe(i, gate, next);
  }

  lemma GateOpensOk(i: Input, gate: Gate, next: Gate)
    requires InputOk(i, gate) && next.generation == gate.generation && (gate.live ==> next.live)
    requires gate.stream.Some? ==> next.stream.Some?
    ensures InputOk(i, next)
  {
    assert UnsafeOk(i, next);
  }

  lemma DesiredOk(i: Input, gate: Gate, desired: Option<Geometry>, sent: Option<Geometry>)
    requires InputOk(i, gate)
    ensures InputOk(i.(desired := desired, sent := sent), gate)
  {
    assert UnsafeOk(i.(desired := desired, sent := sent), gate);
  }

  // ---------------------------------------------------------------------------
  // The send chain of one generation moves by its head link.
  // ---------------------------------------------------------------------------

  /** The chain after its head moves to `phase`, or after it is done. */
  ghost function MovedChain(chain: seq<Job>, item: Inflight, phase: Option<Phase>): seq<Job>
    requires chain != []
  {
    if phase.Some? then [Job(item, phase.value)] + chain[1..] else chain[1..]
  }

  ghost function MovedWire(wire: seq<WireFrame>, item: Inflight, part: Option<Part>): seq<WireFrame> {
    if part.Some? then wire + [WireFrame(item, part.value)] else wire
  }

  /** `item` is the head operation; a RESIZE may have taken a newer geometry. */
  ghost predicate SameWork(head: Inflight, item: Inflight) {
    || item == head
    || (head.entry.op.Resize? && item.entry.op.Resize? && item == head.(entry := head.entry.(op := item.entry.op)))
  }

  /** The moves of a head link: it starts, offers its next frame, aborts, fails, or is done. */
  ghost predicate LegalMove(head: Job, item: Inflight, phase: Option<Phase>, part: Option<Part>) {
    && SameWork(head.item, item)
    && match phase
       case None => part == None
       case Some(Failed) => part == None
       case Some(Sending(n)) =>
         && part == Some(Data(n)) && n < item.entry.op.FrameCount()
         && (n == 0 ==> head.phase == Waiting)
         && (n > 0 ==> head.phase == Sending(n - 1) && item == head.item)
       case Some(Aborting) =>
         part == Some(Abort) && head.phase.Sending? && head.phase.index > 0 && item == head.item && item.entry.op.Paste?
       case Some(Waiting) => false
  }

  lemma MovedWireOk(wire: seq<WireFrame>, head: Job, item: Inflight, phase: Option<Phase>, part: Option<Part>)
    requires WireOk(wire) && Linked([head], wire) && LegalMove(head, item, phase, part)
    ensures WireOk(MovedWire(wire, item, part))
  {
    var w := MovedWire(wire, item, part);
    if part.Some? && wire != [] {
      assert Follows(w[|wire| - 1], w[|wire|]);
    }
    forall k | 0 < k < |w| ensures Follows(w[k - 1], w[k]) {
      if k < |wire| {
        assert Follows(wire[k - 1], wire[k]);
      }
    }
  }

  lemma MovedChainOk(chain: seq<Job>, g: nat, item: Inflight, phase: Option<Phase>)
    requires chain != [] && ChainOk(chain, g) && SameWork(chain[0].item, item)
    ensures ChainOk(MovedChain(chain, item, phase), g)
  {
    var c := MovedChain(chain, item, phase);
    var d := if phase.Some? then 0 else 1;
    assert forall k :: 0 <= k < |c| ==> c[k].item.operationId == chain[k + d].item.operationId;
  }

  lemma MovedStream(chain: seq<Job>, wire: seq<WireFrame>, g: nat, item: Inflight, phase: Option<Phase>, part: Option<Part>)
    requires chain != [] && StreamOk(chain, wire, g) && LegalMove(chain[0], item, phase, part)
    ensures StreamOk(MovedChain(chain, item, phase), MovedWire(wire, item, part), g)
  {
    MovedWireOk(wire, chain[0], item, phase, part);
    MovedChainOk(chain, g, item, phase);
  }

  /** Only generation g's lists change. */
  ghost predicate MovesAt(chains: map<nat, seq<Job>>, wires: map<nat, seq<WireFrame>>,
                          chains': map<nat, seq<Job>>, wires': map<nat, seq<WireFrame>>,
                          g: nat, item: Inflight, phase: Option<Phase>, part: Option<Part>) {
    && Of(chains, g) != [] && LegalMove(Of(chains, g)[0], item, phase, part)
    && chains' == chains[g := MovedChain(Of(chains, g), item, phase)]
    && wires' == if part.Some? then wires[g := MovedWire(Of(wires, g), item, part)] else wires
  }

  lemma MovesElsewhere(chains: map<nat, seq<Job>>, wires: map<nat, seq<WireFrame>>,
                       chains': map<nat, seq<Job>>, wires': map<nat, seq<WireFrame>>,
                       g: nat, item: Inflight, phase: Option<Phase>, part: Option<Part>)
    requires MovesAt(chains, wires, chains', wires', g, item, phase, part)
    ensures Of(chains', g) == MovedChain(Of(chains, g), item, phase)
    ensures Of(wires', g) == MovedWire(Of(wires, g), item, part)
    ensures forall h: nat :: h != g ==> Of(chains', h) == Of(chains, h) && Of(wires', h) == Of(wires, h)
  {
  }

  lemma MovesChains(chains: map<nat, seq<Job>>, wires: map<nat, seq<WireFrame>>,
                    chains': map<nat, seq<Job>>, wires': map<nat, seq<WireFrame>>,
                    g: nat, item: Inflight, phase: Option<Phase>, part: Option<Part>, next: nat, gate: Gate)
    requires ChainsOk(chains, wires, next, gate) && MovesAt(chains, wires, chains', wires', g, item, phase, part)
    ensures ChainsOk(chains', wires', next, gate)
  {
    MovesElsewhere(chains, wires, chains', wires', g, item, phase, part);
    assert StreamOk(Of(chains, g), Of(wires, g), g);
    MovedStream(Of(chains, g), Of(wires, g), g, item, phase, part);
    forall h: nat ensures StreamOk(Of(chains', h), Of(wires', h), h) {
      assert StreamOk(Of(chains, h), Of(wires, h), h);
    }
    assert Of(chains, g)[0].item.operationId == item.operationId;
    assert Below(Of(chains', gate.generation), Of(wires', gate.generation), next);
  }

  lemma MovesInOrder(chains: map<nat, seq<Job>>, wires: map<nat, seq<WireFrame>>,
                     chains': map<nat, seq<Job>>, wires': map<nat, seq<WireFrame>>,
                     g: nat, item: Inflight, phase: Option<Phase>, part: Option<Part>,
                     queued: seq<Entry>, nextTicket: nat, generation: nat)
    requires OrderOk(queued, nextTicket, chains, wires, generation)
    requires MovesAt(chains, wires, chains', wires', g, item, phase, part)
    ensures OrderOk(queued, nextTicket, chains', wires', generation)
  {
    MovesElsewhere(chains, wires, chains', wires', g, item, phase, part);
    assert StreamInOrder(Of(chains, g), Of(wires, g));
    MovesOrder(Of(chains, g), Of(wires, g), item, phase, part);
    forall h: nat ensures StreamInOrder(Of(chains', h), Of(wires', h)) {
      assert StreamInOrder(Of(chains, h), Of(wires, h));
    }
    forall k | 0 <= k < |queued|
      ensures JobsBefore(Of(chains', generation), queued[k].ticket)
      ensures FramesBefore(Of(wires', generation), queued[k].ticket)
    {
      assert JobsBefore(Of(chains, generation), queued[k].ticket);
    }
  }

  lemma MovesOrder(chain: seq<Job>, wire: seq<WireFrame>, item: Inflight, phase: Option<Phase>, part: Option<Part>)
    requires chain != [] && LegalMove(chain[0], item, phase, part) && StreamInOrder(chain, wire)
    ensures StreamInOrder(MovedChain(chain, item, phase), MovedWire(wire, item, part))
    ensures forall limit: nat :: JobsBefore(chain, limit) && FramesBefore(wire, limit) ==>
      JobsBefore(MovedChain(chain, item, phase), limit) && FramesBefore(MovedWire(wire, item, part), limit)
  {
    MovesStreamOrder(chain, wire, item, phase, part);
    hide StreamInOrder, LegalMove;
    forall limit: nat | JobsBefore(chain, limit) && FramesBefore(wire, limit)
      ensures JobsBefore(MovedChain(chain, item, phase), limit) && FramesBefore(MovedWire(wire, item, part), limit)
    {
      MovesBefore(chain, wire, item, phase, part, limit);
    }
  }

  lemma MovesBefore(chain: seq<Job>, wire: seq<WireFrame>, item: Inflight, phase: Option<Phase>, part: Option<Part>, limit: nat)
    requires chain != [] && LegalMove(chain[0], item, phase, part) && JobsBefore(chain, limit) && FramesBefore(wire, limit)
    ensures JobsBefore(MovedChain(chain, item, phase), limit) && FramesBefore(MovedWire(wire, item, part), limit)
  {
  }

  lemma MovesStreamOrder(chain: seq<Job>, wire: seq<WireFrame>, item: Inflight, phase: Option<Phase>, part: Option<Part>)
    requires chain != [] && LegalMove(chain[0], item, phase, part) && StreamInOrder(chain, wire)
    ensures StreamInOrder(MovedChain(chain, item, phase), MovedWire(wire, item, part))
  {
    var c, w := MovedChain(chain, item, phase), MovedWire(wire, item, part);
    assert !chain[0].item.entry.op.Resize? ==> FramesBefore(wire, chain[0].item.entry.ticket + 1);
    forall k | 0 <= k < |c| && !c[k].item.entry.op.Resize?
      ensures FramesBefore(w, c[k].item.entry.ticket + 1)
    {
      var k0 := if phase.Some? then k else k + 1;
      assert c[k].item.entry.ticket == chain[k0].item.entry.ticket;
      assert FramesBefore(wire, chain[k0].item.entry.ticket + 1);
    }
  }

  lemma MovesAuthorized(chains: map<nat, seq<Job>>, wires: map<nat, seq<WireFrame>>,
                        chains': map<nat, seq<Job>>, wires': map<nat, seq<WireFrame>>,
                        g: nat, item: Inflight, phase: Option<Phase>, part: Option<Part>,
                        confirmed: seq<Confirmation>, outcomes: seq<Outcome>)
    requires SentAuthorized(chains, wires, confirmed, outcomes)
    requires MovesAt(chains, wires, chains', wires', g, item, phase, part)
    ensures SentAuthorized(chains', wires', confirmed, outcomes)
  {
    MovesElsewhere(chains, wires, chains', wires', g, item, phase, part);
    assert JobsAuthorized(Of(chains, g), confirmed, outcomes, g);
    assert Authorized(Of(chains, g)[0].item.entry, confirmed, outcomes, g);
    forall h: nat
      ensures JobsAuthorized(Of(chains', h), confirmed, outcomes, h)
      ensures FramesAuthorized(Of(wires', h), confirmed, outcomes, h)
    {
      assert JobsAuthorized(Of(chains, h), confirmed, outcomes, h);
      assert FramesAuthorized(Of(wires, h), confirmed, outcomes, h);
    }
  }

  lemma MovesFence(chains: map<nat, seq<Job>>, wires: map<nat, seq<WireFrame>>,
                   chains': map<nat, seq<Job>>, wires': map<nat, seq<WireFrame>>,
                   g: nat, item: Inflight, phase: Option<Phase>, part: Option<Part>,
                   queued: seq<Entry>, inflight: seq<Inflight>, nextTicket: nat, generation: nat)
    requires MovesAt(chains, wires, chains', wires', g, item, phase, part)
    requires FenceOk(chains, queued, inflight, nextTicket, generation)
    ensures FenceOk(chains', queued, inflight, nextTicket, generation)
  {
    MovesElsewhere(chains, wires, chains', wires', g, item, phase, part);
    forall h: nat, limit: nat | ChainBefore(Of(chains, h), limit) ensures ChainBefore(Of(chains', h), limit) {
    }
  }

  lemma MovesSlot(chains: map<nat, seq<Job>>, wires: map<nat, seq<WireFrame>>,
                  chains': map<nat, seq<Job>>, wires': map<nat, seq<WireFrame>>,
                  g: nat, item: Inflight, phase: Option<Phase>, part: Option<Part>, generation: nat, slot: Option<nat>)
    requires MovesAt(chains, wires, chains', wires', g, item, phase, part)
    requires SlotOk(Of(chains, generation), slot)
    ensures SlotOk(Of(chains', generation), slot)
  {
    MovesElsewhere(chains, wires, chains', wires', g, item, phase, part);
  }

  lemma MovesOk(i: Input, chains': map<nat, seq<Job>>, wires': map<nat, seq<WireFrame>>,
                gate: Gate, g: nat, item: Inflight, phase: Option<Phase>, part: Option<Part>)
    requires InputOk(i, gate) && MovesAt(i.chains, i.wires, chains', wires', g, item, phase, part)
    ensures InputOk(i.(chains := chains', wires := wires'), gate)
  {
    hide WindowOk, GeometryOk, BytesOk, ChainsOk, OrderOk, FenceOk, SlotOk;
    MovesChains(i.chains, i.wires, chains', wires', g, item, phase, part, i.nextOperationId, gate);
    MovesInOrder(i.chains, i.wires, chains', wires', g, item, phase, part, i.queued, i.nextTicket, gate.generation);
    MovesAuthorized(i.chains, i.wires, chains', wires', g, item, phase, part, i.confirmed, i.outcomes);
    MovesFence(i.chains, i.wires, chains', wires', g, item, phase, part, i.queued, i.inflight, i.nextTicket, gate.generation);
    MovesSlot(i.chains, i.wires, chains', wires', g, item, phase, part, gate.generation, i.geometryOperation);
    assert UnsafeOk(i.(chains := chains', wires := wires'), gate);
  }

  /** Where the head link stands on its wire. */
  lemma HeadLinked(i: Input, gate: Gate, g: nat)
    requires InputOk(i, gate)
    ensures StreamOk(i.Chain(g), i.Wire(g), g)
  {
    assert StreamOk(Of(i.chains, g), Of(i.wires, g), g);
  }

  lemma PopHeadOk(i: Input, gate: Gate, g: nat)
    requires InputOk(i, gate) && i.Chain(g) != []
    ensures InputOk(PopHead(i, g), gate)
  {
    hide InputOk;
    MovesOk(i, PopHead(i, g).chains, i.wires, gate, g, i.Chain(g)[0].item, None, None);
  }

  lemma FailHeadOk(i: Input, gate: Gate, g: nat, item: Inflight)
    requires InputOk(i, gate) && i.Chain(g) != [] && SameWork(i.Chain(g)[0].item, item)
    ensures InputOk(SetHead(i, g, Job(item, Failed)), gate)
  {
    hide InputOk;
    MovesOk(i, SetHead(i, g, Job(item, Failed)).chains, i.wires, gate, g, item, Some(Failed), None);
  }

  lemma OfferOk(i: Input, gate: Gate, g: nat, item: Inflight, phase: Phase, part: Part)
    requires InputOk(i, gate) && i.Chain(g) != [] && LegalMove(i.Chain(g)[0], item, Some(phase), Some(part))
    ensures InputOk(Offer(SetHead(i, g, Job(item, phase)), g, WireFrame(item, part)), gate)
  {
    hide InputOk;
    var j := Offer(SetHead(i, g, Job(item, phase)), g, WireFrame(item, part));
    MovesOk(i, j.chains, j.wires, gate, g, item, Some(phase), Some(part));
  }

  lemma StartSendingOk(i: Input, gate: Gate, g: nat, item: Inflight)
    requires InputOk(i, gate) && HeadIs(i, g, Waiting) && SameWork(i.Chain(g)[0].item, item)
    ensures InputOk(StartSending(i, g, item), gate)
  {
    if item.entry.op.Encodes() {
      OfferOk(i, gate, g, item, Sending(0), Data(0));
    } else {
      FailHeadOk(i, gate, g, item);
    }
  }

  lemma NextFrameOk(i: Input, gate: Gate, g: nat, item: Inflight, n: nat)
    requires InputOk(i, gate) && i.Chain(g) != [] && i.Chain(g)[0] == Job(item, Sending(n))
    requires n + 1 < item.entry.op.FrameCount()
    ensures InputOk(Offer(SetHead(i, g, Job(item, Sending(n + 1))), g, WireFrame(item, Data(n + 1))), gate)
  {
    assert LegalMove(i.Chain(g)[0], item, Some(Sending(n + 1)), Some(Data(n + 1)));
    OfferOk(i, gate, g, item, Sending(n + 1), Data(n + 1));
  }

  lemma SendDoneOffers(i: Input, g: nat, item: Inflight, n: nat)
    requires i.Chain(g) != [] && i.Chain(g)[0] == Job(item, Sending(n)) && n + 1 < item.entry.op.FrameCount()
    ensures SendDone(i, g) == Offer(SetHead(i, g, Job(item, Sending(n + 1))), g, WireFrame(item, Data(n + 1)))
  {
  }

  lemma SendDoneOk(i: Input, gate: Gate, g: nat)
    requires InputOk(i, gate)
    ensures InputOk(SendDone(i, g), gate)
  {
    hide InputOk;
    if i.Chain(g) != [] && i.Chain(g)[0].phase.Sending? {
      var item, n := i.Chain(g)[0].item, i.Chain(g)[0].phase.index;
      if n + 1 < item.entry.op.FrameCount() {
        SendDoneOffers(i, g, item, n);
        NextFrameOk(i, gate, g, item, n);
      } else {
        PopHeadOk(i, gate, g);
      }
    }
  }

  lemma SendFailOk(i: Input, gate: Gate, g: nat)
    requires InputOk(i, gate)
    ensures InputOk(SendFail(i, gate, g), gate)
  {
    if i.Chain(g) != [] && i.Chain(g)[0].phase.Sending? {
      var item := i.Chain(g)[0].item;
      if item.entry.op.Paste? && i.Chain(g)[0].phase.index > 0 && gate.stream == Some(g) {
        OfferOk(i, gate, g, item, Aborting, Abort);
      } else {
        FailHeadOk(i, gate, g, item);
      }
    }
  }

  lemma AbortDoneOk(i: Input, gate: Gate, g: nat)
    requires InputOk(i, gate)
    ensures InputOk(AbortDone(i, g), gate)
  {
    if HeadIs(i, g, Aborting) {
      FailHeadOk(i, gate, g, i.Chain(g)[0].item);
    }
  }

  lemma ChainCatchOk(i: Input, gate: Gate, g: nat)
    requires InputOk(i, gate)
    ensures InputOk(ChainCatch(i, gate, g), gate)
  {
    hide InputOk;
    if HeadIs(i, g, Failed) {
      PopHeadOk(i, gate, g);
      SettleOk(PopHead(i, g), gate, i.Chain(g)[0].item, Cancelled, None, None, 0);
    }
  }

  lemma StartGeometryOk(i: Input, gate: Gate, g: nat, item: Inflight)
    requires InputOk(i, gate) && HeadIs(i, g, Waiting) && i.Chain(g)[0].item == item && item.entry.op.Resize?
    ensures InputOk(StartGeometry(i, gate, g, item), gate)
  {
    hide InputOk;
    if i.desired.Some? && gate.hydrated && i.sent != i.desired {
      DesiredOk(i, gate, i.desired, i.desired);
      StartSendingOk(i.(sent := i.desired), gate, g, item.(entry := item.entry.(op := Resize(i.desired.value))));
    } else {
      PopHeadOk(i, gate, g);
      ReleaseOk(PopHead(i, g), gate, item);
      PumpOk(Release(PopHead(i, g), item), gate);
    }
  }

  lemma ChainRunOk(i: Input, gate: Gate, g: nat)
    requires InputOk(i, gate)
    ensures InputOk(ChainRun(i, gate, g), gate)
  {
    if HeadIs(i, g, Waiting) {
      var item := i.Chain(g)[0].item;
      if !gate.Current(item.generation) || gate.stream != Some(g) {
        PopHeadOk(i, gate, g);
        SettleOk(PopHead(i, g), gate, item, Cancelled, None, None, 0);
      } else {
        HeadLinked(i, gate, g);
        assert item.generation == g;
        if i.geometryOperation == Some(item.entry.ticket) {
          StartGeometryOk(i, gate, g, item);
        } else {
          StartSendingOk(i, gate, g, item);
        }
      }
    }
  }
}
