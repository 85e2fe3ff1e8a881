/** Input side of the terminal data plane, as values: the bounded queue, the in-flight window,
    the ordered send chains with multi-frame pastes, latest-wins geometry, and unsafe-paste consent.
    Every function is one atomic piece of a callback; the plane module composes them.

    Byte counters do not appear here: the retained bytes are the sums over what is held. The class
    in HubTerminalDataPlane.dfy keeps the counters and is proved to agree with these sums. */
module TerminalInput {
  import opened Wrappers

  const MAX_INFLIGHT_INPUT_OPERATIONS: nat := 32
  const MAX_QUEUED_INPUT_OPERATIONS: nat := 256
  const MAX_QUEUED_INPUT_BYTES: nat := 2097152
  const MAX_PASTE_BYTES: nat := 1048576
  const MAX_PASTE_CHUNK_DATA_BYTES: nat := 65531
  const MAX_INPUT_BODY_BYTES: nat := 65535
  const RESIZE_BODY_BYTES: nat := 12
  const CONSENT_TIMEOUT_MS: nat := 30000

  type Bytes = seq<bv8>

  datatype Geometry = Geometry(rows: nat, cols: nat, widthPx: nat, heightPx: nat)

  /** One encodable operation. A key carries its text only through its two lengths: the UTF-16
      length is what the queue accounts, the UTF-8 length is what the frame carries. */
  datatype Operation =
    | Raw(bytes: Bytes)
    | Key(textUnits: nat, textBytes: nat)
    | Mouse
    | Focus(focused: bool)
    | Resize(geometry: Geometry)
    | Paste(data: Bytes, allowUnsafe: bool)
  {
    predicate Unsafe() { Paste? && allowUnsafe }

    /** Client payload bytes the operation retains. */
    function BodyBytes(): nat {
      match this
      case Raw(bytes) => |bytes|
      case Key(units, _) => 12 + units
      case Mouse => 17
      case Focus(_) => 1
      case Resize(_) => RESIZE_BODY_BYTES
      case Paste(data, _) => |data|
    }

    /** False when the frame encoder throws: an oversized raw or key body, or an empty or oversized paste. */
    predicate Encodes() {
      match this
      case Raw(bytes) => |bytes| <= MAX_INPUT_BODY_BYTES
      case Key(_, bytes) => 12 + bytes <= MAX_INPUT_BODY_BYTES
      case Paste(data, _) => 0 < |data| <= MAX_PASTE_BYTES
      case _ => true
    }

    /** A paste is PASTE_BEGIN, its chunks, PASTE_COMMIT; everything else is one frame. */
    function FrameCount(): nat {
      if Paste? then 2 + (|data| + MAX_PASTE_CHUNK_DATA_BYTES - 1) / MAX_PASTE_CHUNK_DATA_BYTES else 1
    }
  }

  datatype Consent = Consent(generation: nat, operationId: nat, expiresAt: nat)

  /** A queued operation. `ticket` is its identity: the source compares entry objects by reference.
      `authority` is the confirmation an unsafe paste was admitted under. */
  datatype Entry = Entry(ticket: nat, op: Operation, requestedBytes: nat,
                         pasteData: Option<Bytes>, pasteAttempt: nat, authority: Option<nat>)

  datatype Inflight = Inflight(entry: Entry, operationId: nat, generation: nat)

  /** Where a link of the send chain stands: not started, frame `index` offered and awaited,
      abort frame awaited, or rejected and about to reach the chain's catch. */
  datatype Phase = Waiting | Sending(index: nat) | Aborting | Failed

  datatype Job = Job(item: Inflight, phase: Phase)

  datatype Part = Data(index: nat) | Abort

  /** One frame offered to a stream. */
  datatype WireFrame = WireFrame(item: Inflight, part: Part)

  datatype OutcomeName =
    | Written | PartialWrite | WriteFailed | Cancelled | RejectedNotWritable | RejectedTooLarge
    | RejectedUnsafePaste | RejectedLaneFull | RejectedProtocol | SessionEnded | OutcomeUnknown

  /** The single outcome of an admitted operation; `operationId` is absent when it never left the queue. */
  datatype Outcome = Outcome(entry: Entry, operationId: Option<nat>, generation: nat, name: OutcomeName,
                             accepted: Option<nat>, written: Option<nat>)

  datatype LocalRefusal = QueueBounds | EmptyPaste | PasteWhileDetached | PasteTooLarge

  /** The paste Core refused, and the outcome record that refusal left. */
  datatype PendingPaste = PendingPaste(consent: Consent, data: Bytes, rejection: nat)

  datatype Confirmation = Confirmation(ticket: nat, rejection: nat)

  /** What the input side reads of the rest of the plane. */
  datatype Gate = Gate(generation: nat, live: bool, stream: Option<nat>, attached: bool, hydrated: bool)
  {
    predicate Open() { live && stream.Some? && attached }

    predicate Current(g: nat) { live && g == generation }
  }

  /** The list of generation g; a generation without one has the empty list. */
  function Of<T>(lists: map<nat, seq<T>>, g: nat): seq<T> { if g in lists then lists[g] else [] }

  /** `chains` holds the unfinished links of the send chain of each attachment generation and `wires`
      the frames offered to the stream that generation opened. The logs `outcomes`, `released`,
      `refusals` and `confirmed` are never read by the operations. */
  datatype Input = Input(
    nextTicket: nat,
    nextOperationId: nat,
    queued: seq<Entry>,
    inflight: seq<Inflight>,
    chains: map<nat, seq<Job>>,
    wires: map<nat, seq<WireFrame>>,
    desired: Option<Geometry>,
    sent: Option<Geometry>,
    geometryOperation: Option<nat>,
    pasteAttempt: nat,
    pending: Option<PendingPaste>,
    outcomes: seq<Outcome>,
    released: seq<nat>,
    refusals: seq<LocalRefusal>,
    confirmed: seq<Confirmation>)
  {
    function Chain(g: nat): seq<Job> { Of(chains, g) }

    function Wire(g: nat): seq<WireFrame> { Of(wires, g) }
  }

  const EMPTY_INPUT := Input(0, 1, [], [], map[], map[], None, None, None, 0, None, [], [], [], [])

  // ---------------------------------------------------------------------------
  // Retained bytes.
  // ---------------------------------------------------------------------------

  function QueuedBytes(queued: seq<Entry>): nat {
    if queued == [] then 0 else QueuedBytes(queued[..|queued| - 1]) + queued[|queued| - 1].op.BodyBytes()
  }

  function InflightBytes(inflight: seq<Inflight>): nat {
    if inflight == [] then 0
    else InflightBytes(inflight[..|inflight| - 1]) + inflight[|inflight| - 1].entry.op.BodyBytes()
  }

  function ConsentBytes(pending: Option<PendingPaste>): nat {
    if pending.Some? then |pending.value.data| else 0
  }

  function RetainedBytes(i: Input): nat {
    QueuedBytes(i.queued) + InflightBytes(i.inflight) + ConsentBytes(i.pending)
  }

  // ---------------------------------------------------------------------------
  // Window: appending, latest-wins geometry, pump.
  // ---------------------------------------------------------------------------

  /** Gives `entry` the next operation id and a link at the end of this generation's send chain. */
  function Append(i: Input, g: nat, entry: Entry): Input {
    var item := Inflight(entry, i.nextOperationId, g);
    i.(nextOperationId := i.nextOperationId + 1,
       inflight := i.inflight + [item],
       chains := i.chains[g := i.Chain(g) + [Job(item, Waiting)]])
  }

  /** The conditions under which one RESIZE may be appended. */
  predicate GeometryDue(i: Input, gate: Gate) {
    && gate.Open() && gate.hydrated
    && i.desired.Some? && i.geometryOperation.None?
    && |i.inflight| < MAX_INFLIGHT_INPUT_OPERATIONS
    && i.sent != i.desired
  }

  function SendGeometry(i: Input, gate: Gate): Input {
    if !GeometryDue(i, gate) then i else
      var entry := Entry(i.nextTicket, Resize(i.desired.value), RESIZE_BODY_BYTES, None, 0, None);
      Append(i.(nextTicket := i.nextTicket + 1), gate.generation, entry).(geometryOperation := Some(i.nextTicket))
  }

  /** Moves queued operations into the window, in order, until it is full or the queue is empty. */
  function Fill(i: Input, g: nat): Input
    decreases |i.queued|
  {
    if |i.inflight| >= MAX_INFLIGHT_INPUT_OPERATIONS || i.queued == [] then i
    else Fill(Append(i.(queued := i.queued[1..]), g, i.queued[0]), g)
  }

  function Pump(i: Input, gate: Gate): Input {
    if gate.Open() then Fill(SendGeometry(i, gate), gate.generation) else i
  }

  // ---------------------------------------------------------------------------
  // Admission.
  // ---------------------------------------------------------------------------

  predicate Admits(i: Input, op: Operation) {
    |i.queued| < MAX_QUEUED_INPUT_OPERATIONS && RetainedBytes(i) + op.BodyBytes() <= MAX_QUEUED_INPUT_BYTES
  }

  function Enqueue(i: Input, entry: Entry): Input {
    i.(nextTicket := i.nextTicket + 1, queued := i.queued + [entry])
  }

  function Refuse(i: Input, reason: LocalRefusal): Input {
    i.(refusals := i.refusals + [reason])
  }

  function AdmitInput(i: Input, op: Operation, requestedBytes: nat): Input {
    if Admits(i, op) then Enqueue(i, Entry(i.nextTicket, op, requestedBytes, None, 0, None))
    else Refuse(i, QueueBounds)
  }

  function ReleaseConsent(i: Input): Input { i.(pending := None) }

  /** The refusals a paste meets before the queue; `units` is the UTF-16 length of the clipboard text. */
  function PasteRefusal(live: bool, units: nat, data: Bytes): Option<LocalRefusal> {
    if units == 0 then Some(EmptyPaste)
    else if !live then Some(PasteWhileDetached)
    else if units > MAX_PASTE_BYTES || |data| > MAX_PASTE_BYTES then Some(PasteTooLarge)
    else None
  }

  /** A new paste attempt: any earlier consent is gone whether or not this paste is admitted. */
  function BeginPaste(i: Input): Input {
    ReleaseConsent(i).(pasteAttempt := i.pasteAttempt + 1)
  }

  function AdmitPaste(i: Input, data: Bytes): Input {
    if Admits(i, Paste(data, false))
    then Enqueue(i, Entry(i.nextTicket, Paste(data, false), |data|, Some(data), i.pasteAttempt, None))
    else Refuse(i, QueueBounds)
  }

  // ---------------------------------------------------------------------------
  // Unsafe-paste consent.
  // ---------------------------------------------------------------------------

  predicate ConsentMatches(i: Input, consent: Consent) {
    i.pending.Some? && i.pending.value.consent == consent
  }

  /** Confirmation is honoured only on the attachment that was refused and before the expiry. */
  predicate ConsentUsable(gate: Gate, consent: Consent, now: nat) {
    gate.Current(consent.generation) && now < consent.expiresAt
  }

  function AdmitConfirmed(i: Input): Input
    requires i.pending.Some?
  {
    var pending := i.pending.value;
    var op := Paste(pending.data, true);
    var freed := ReleaseConsent(i);
    if Admits(freed, op)
    then Enqueue(freed, Entry(i.nextTicket, op, |pending.data|, None, 0, Some(|i.confirmed|)))
           .(confirmed := i.confirmed + [Confirmation(i.nextTicket, pending.rejection)])
    else Refuse(freed, QueueBounds)
  }

  function Cancel(i: Input, consent: Consent): Input {
    if ConsentMatches(i, consent) then ReleaseConsent(i) else i
  }

  // ---------------------------------------------------------------------------
  // Settlement.
  // ---------------------------------------------------------------------------

  /** Position of `operationId` in the window, or the window's length. */
  function IndexOf(inflight: seq<Inflight>, operationId: nat): (k: nat)
    ensures k <= |inflight|
    ensures k < |inflight| ==> inflight[k].operationId == operationId
    ensures k == |inflight| ==> forall j :: 0 <= j < |inflight| ==> inflight[j].operationId != operationId
  {
    if inflight == [] then 0
    else if inflight[0].operationId == operationId then 0
    else 1 + IndexOf(inflight[1..], operationId)
  }

  /** The window still holds this very operation, not a later one that reused its id. */
  predicate Holds(i: Input, item: Inflight) {
    var k := IndexOf(i.inflight, item.operationId);
    k < |i.inflight| && i.inflight[k].entry.ticket == item.entry.ticket
  }

  function Without(i: Input, item: Inflight): Input
    requires Holds(i, item)
  {
    var k := IndexOf(i.inflight, item.operationId);
    i.(inflight := i.inflight[..k] + i.inflight[k + 1..],
       geometryOperation := if i.geometryOperation == Some(item.entry.ticket) then None else i.geometryOperation)
  }

  predicate GrantsConsent(i: Input, gate: Gate, item: Inflight, name: OutcomeName,
                          accepted: Option<nat>, written: Option<nat>) {
    && name == RejectedUnsafePaste && accepted == Some(0) && written == Some(0)
    && item.entry.pasteData.Some?
    && item.entry.pasteAttempt == i.pasteAttempt
    && gate.Current(item.generation)
  }

  /** Records the one outcome of `item`, without the pump that follows. */
  function Record(i: Input, gate: Gate, item: Inflight, name: OutcomeName,
                  accepted: Option<nat>, written: Option<nat>, now: nat): Input
    requires Holds(i, item)
  {
    var rest := Without(i, item);
    var logged := rest.(outcomes := i.outcomes
        + [Outcome(item.entry, Some(item.operationId), item.generation, name, accepted, written)]);
    if GrantsConsent(i, gate, item, name, accepted, written)
    then logged.(pending := Some(PendingPaste(Consent(item.generation, item.operationId, now + CONSENT_TIMEOUT_MS),
                                              item.entry.pasteData.value, |i.outcomes|)))
    else logged
  }

  function Settle(i: Input, gate: Gate, item: Inflight, name: OutcomeName,
                  accepted: Option<nat>, written: Option<nat>, now: nat): Input
  {
    if Holds(i, item) then Pump(Record(i, gate, item, name, accepted, written, now), gate) else i
  }

  /** An INPUT_RESULT; an unknown or already settled id changes nothing. */
  function SettleResult(i: Input, gate: Gate, operationId: nat, name: OutcomeName,
                        accepted: Option<nat>, written: Option<nat>, now: nat): Input
  {
    var k := IndexOf(i.inflight, operationId);
    if k < |i.inflight| && i.inflight[k].generation == gate.generation
    then Settle(i, gate, i.inflight[k], name, accepted, written, now)
    else i
  }

  function UnknownOutcomes(inflight: seq<Inflight>): seq<Outcome> {
    seq(|inflight|, k requires 0 <= k < |inflight| =>
      Outcome(inflight[k].entry, Some(inflight[k].operationId), inflight[k].generation, OutcomeUnknown, None, None))
  }

  function CancelledOutcomes(queued: seq<Entry>, g: nat): seq<Outcome> {
    seq(|queued|, k requires 0 <= k < |queued| => Outcome(queued[k], None, g, Cancelled, None, None))
  }

  /** The attachment changed: what was in flight ends unknown, what was queued is cancelled. */
  function Abandon(i: Input, g: nat): Input {
    i.(inflight := [], queued := [],
       outcomes := i.outcomes + UnknownOutcomes(i.inflight) + CancelledOutcomes(i.queued, g),
       pending := None, sent := None, geometryOperation := None, nextOperationId := 1)
  }

  // ---------------------------------------------------------------------------
  // The ordered send chain of generation g. Each function is one continuation of its head link.
  // ---------------------------------------------------------------------------

  function SetHead(i: Input, g: nat, job: Job): Input
    requires i.Chain(g) != []
  {
    i.(chains := i.chains[g := [job] + i.Chain(g)[1..]])
  }

  function PopHead(i: Input, g: nat): Input
    requires i.Chain(g) != []
  {
    i.(chains := i.chains[g := i.Chain(g)[1..]])
  }

  function Offer(i: Input, g: nat, frame: WireFrame): Input {
    i.(wires := i.wires[g := i.Wire(g) + [frame]])
  }

  /** Builds the frames and offers the first one, or fails when the encoder throws. */
  function StartSending(i: Input, g: nat, item: Inflight): Input
    requires i.Chain(g) != []
  {
    if item.entry.op.Encodes()
    then Offer(SetHead(i, g, Job(item, Sending(0))), g, WireFrame(item, Data(0)))
    else SetHead(i, g, Job(item, Failed))
  }

  /** Frees the window slot of a RESIZE that is not sent after all. It gets no outcome. */
  function Release(i: Input, item: Inflight): Input {
    if Holds(i, item) then Without(i, item).(released := i.released + [item.entry.ticket]) else i
  }

  function StartGeometry(i: Input, gate: Gate, g: nat, item: Inflight): Input
    requires i.Chain(g) != []
  {
    if i.desired.Some? && gate.hydrated && i.sent != i.desired
    then StartSending(i.(sent := i.desired), g, item.(entry := item.entry.(op := Resize(i.desired.value))))
    else Pump(Release(PopHead(i, g), item), gate)
  }

  predicate HeadIs(i: Input, g: nat, phase: Phase) {
    i.Chain(g) != [] && i.Chain(g)[0].phase == phase
  }

  /** The head link starts: an operation of another attachment settles unsent. */
  function ChainRun(i: Input, gate: Gate, g: nat): Input {
    if !HeadIs(i, g, Waiting) then i else
      var item := i.Chain(g)[0].item;
      if !gate.Current(item.generation) || gate.stream != Some(g)
      then Settle(PopHead(i, g), gate, item, Cancelled, None, None, 0)
      else if i.geometryOperation == Some(item.entry.ticket) then StartGeometry(i, gate, g, item)
      else StartSending(i, g, item)
  }

  /** The awaited frame was accepted by the stream: offer the next one or finish the link. */
  function SendDone(i: Input, g: nat): Input {
    if i.Chain(g) == [] || !i.Chain(g)[0].phase.Sending? then i else
      var item := i.Chain(g)[0].item;
      var next := i.Chain(g)[0].phase.index + 1;
      if next < item.entry.op.FrameCount()
      then Offer(SetHead(i, g, Job(item, Sending(next))), g, WireFrame(item, Data(next)))
      else PopHead(i, g)
  }

  /** The awaited frame was rejected: a paste that had begun is aborted on the same stream. */
  function SendFail(i: Input, gate: Gate, g: nat): Input {
    if i.Chain(g) == [] || !i.Chain(g)[0].phase.Sending? then i else
      var item := i.Chain(g)[0].item;
      if item.entry.op.Paste? && i.Chain(g)[0].phase.index > 0 && gate.stream == Some(g)
      then Offer(SetHead(i, g, Job(item, Aborting)), g, WireFrame(item, Abort))
      else SetHead(i, g, Job(item, Failed))
  }

  function AbortDone(i: Input, g: nat): Input {
    if HeadIs(i, g, Aborting) then SetHead(i, g, Job(i.Chain(g)[0].item, Failed)) else i
  }

  /** The chain's catch: the failed operation settles cancelled and the next link may start. */
  function ChainCatch(i: Input, gate: Gate, g: nat): Input {
    if HeadIs(i, g, Failed)
    then Settle(PopHead(i, g), gate, i.Chain(g)[0].item, Cancelled, None, None, 0)
    else i
  }
}
