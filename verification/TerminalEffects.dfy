/** What each event does, field by field: when an attachment is reset, started and opened, which ids and Detach
    requests it uses. Each law says for every event of every reachable state what becomes of one field, from the
    state before it, the arrivals handled and the results reported. */
module TerminalEffects {
  import opened Wrappers
  import opened TerminalInput
  import opened TerminalInputProofs
  import opened TerminalPlane
  import opened TerminalPlaneProofs
  import opened TerminalHistory
  import opened TerminalOutputTheorems

  // ---------------------------------------------------------------------------
  // The arrival an event handles.
  // ---------------------------------------------------------------------------

  /** The arrival event e takes from its queue, if it is of the present attachment. */
  function Taken(p: Plane, e: Event): Option<StreamEvent> {
    if e.EvDispatch? && Dispatches(p, e.queue) && !p.life.detached && p.route.Queue(e.queue).items[0].tag == p.life.generation
    then Some(p.route.Queue(e.queue).items[0].event) else None
  }

  /** A frame under the present subscription id. */
  predicate Addressed(p: Plane, e: Event) {
    Taken(p, e).Some? && Taken(p, e).value.Frame? && Taken(p, e).value.route == p.life.subscription
  }

  /** A frame that decodes and belongs to the route generation admitted so far. */
  predicate Fenced(p: Plane, e: Event) {
    && Addressed(p, e) && !Taken(p, e).value.body.Undecodable?
    && (p.route.routeGeneration.Some? ==> p.route.routeGeneration.value == Taken(p, e).value.generation)
  }

  /** The epoch of a frame against the accepted one: ATTACH_STATE and INPUT_RESULT always pass, a resync passes
      from the accepted epoch to another one that its envelope carries. */
  predicate EpochPasses(accepted: Option<nat>, epoch: nat, body: Body) {
    || body.AttachStateFrame? || body.InputResult?
    || (body.RouteResync? && accepted == Some(body.fromEpoch) && body.toEpoch != body.fromEpoch && body.toEpoch == epoch)
    || (!body.RouteResync? && accepted == Some(epoch))
  }

  /** The frame body event e handles. */
  function Handled(p: Plane, e: Event): Option<Body> {
    if Fenced(p, e) && EpochPasses(p.route.acceptedEpoch, Taken(p, e).value.epoch, Taken(p, e).value.body)
    then Some(Taken(p, e).value.body) else None
  }

  /** The plane once the arrival has left its queue, and once its route generation is the admitted one. */
  function Popped(p: Plane, q: nat): Plane
    requires Dispatches(p, q)
  {
    var queue := p.route.Queue(q);
    p.(route := p.route.(queues := p.route.queues[q := queue.(items := queue.items[1..])]))
  }

  function Past(p: Plane, e: Event): Plane
    requires Addressed(p, e)
  {
    var popped := Popped(p, e.queue);
    popped.(route := popped.route.(routeGeneration := Some(Taken(p, e).value.generation)))
  }

  /** A dispatch taken apart: what is dropped, what closes the route, and what a passing frame comes down to. */
  lemma DispatchParts(p: Plane, e: Event)
    requires PlaneOk(p) && e.EvDispatch?
    ensures !Dispatches(p, e.queue) ==> Step(p, e) == p
    ensures Dispatches(p, e.queue) && Taken(p, e).None? ==> Step(p, e) == Popped(p, e.queue)
    ensures Taken(p, e).Some? ==> PlaneOk(Popped(p, e.queue)) && p.life.stream.Some? && e.queue == p.route.queueId
    ensures Taken(p, e).Some? && Taken(p, e).value.Closed? ==>
      Step(p, e) == (if Taken(p, e).value.subscription != p.life.subscription then Popped(p, e.queue)
                     else if Taken(p, e).value.adapterClosed then CloseStream(Popped(p, e.queue)) else Reset(Popped(p, e.queue)))
    ensures Taken(p, e).Some? && Taken(p, e).value.Frame? && !Addressed(p, e) ==> Step(p, e) == Popped(p, e.queue)
    ensures Addressed(p, e) && Taken(p, e).value.body.Undecodable? ==> Step(p, e) == CloseStream(Popped(p, e.queue))
    ensures Addressed(p, e) && !Taken(p, e).value.body.Undecodable? && !Fenced(p, e) ==> Step(p, e) == Popped(p, e.queue)
    ensures Fenced(p, e) ==> PlaneOk(Past(p, e))
    ensures Fenced(p, e) && Handled(p, e).None? ==> Step(p, e) == Past(p, e)
    ensures Handled(p, e).Some? ==>
      Step(p, e) == HandleBody(Past(p, e), e.queue, p.route.Queue(e.queue).items[0].serial, p.life.generation,
                               Handled(p, e).value, e.now)
  {
    hide PlaneOk, HandleBody, CloseStream, Reset;
    if Dispatches(p, e.queue) {
      assert p.route.Queue(e.queue) == QueueOf(p.route.queues, e.queue);
      DispatchHead(p, e.queue);
      if Addressed(p, e) { FenceMoved(Popped(p, e.queue), Taken(p, e).value.generation); }
    }
  }

  // ---------------------------------------------------------------------------
  // The hydration that runs.
  // ---------------------------------------------------------------------------

  /** The screen is live: the hydration of this attachment has completed. */
  predicate LiveScreen(p: Plane) { p.route.hydration.Some? && p.route.hydration.value.completed }

  predicate Ready(p: Plane) { p.route.hydration.Some? && p.route.hydration.value.readyReceived }

  /** The install of queue q that has (or has not) called its reader belongs to the hydration that runs. */
  predicate Installing(p: Plane, q: nat, reading: bool) {
    && p.route.Queue(q).install.Some? && p.route.Queue(q).install.value.reading == reading
    && !p.life.detached && p.route.Queue(q).install.value.generation == p.life.generation
    && p.route.hydration.Some? && p.route.hydration.value.id == p.route.Queue(q).install.value.hydration
  }

  /** What the reader reported does not fit the frame it was given. */
  predicate Misread(ready: bool, progress: Progress) {
    match progress
    case ReaderReady => !ready
    case ReaderPage => ready
    case ReaderFinish => ready
    case ReaderUnknown => true
  }

  // ---------------------------------------------------------------------------
  // When an attachment is reset.
  // ---------------------------------------------------------------------------

  /** The running snapshot is lost: its buffer overflows, its bound passes, its reader fails, or the Hub reports
      a failed attach before the visible screen was restored. */
  predicate LosesSnapshot(p: Plane, e: Event) {
    match e
    case EvHydrationTimeout(h) =>
      p.route.hydration.Some? && p.route.hydration.value.id == h && p.route.hydration.value.armed && !p.route.hydration.value.completed
    case EvReaderFailed(q) => Installing(p, q, true)
    case EvDispatch(_, _) => Handled(p, e).Some? && BodyLoses(p, Handled(p, e).value)
    case _ => false
  }

  predicate BodyLoses(p: Plane, body: Body) {
    (body.Output? && Overflowing(p, body.payload)) || (body.AttachStateFrame? && body.state == AttachFailed && !Ready(p))
  }

  predicate BodyFails(p: Plane, body: Body) {
    || (body.SnapshotFinish? && !LiveScreen(p) && !Ready(p))
    || (body.HistoryUnavailable? && !Ready(p))
    || (body.AttachStateFrame? && (body.state == RouteDetached || (body.state == AttachFailed && Ready(p))))
  }

  /** The route fails for good. */
  predicate FailsRoute(p: Plane, e: Event) {
    match e
    case EvStartInstall(q) =>
      Installing(p, q, false) &&
      var h := p.route.hydration.value;
      h.completed || p.route.Queue(q).install.value.ready == h.readyReceived
      || (!h.historyIncomplete && !h.decoderFinished && !h.hasReader)
    case EvReaderDone(q, progress) => Installing(p, q, true) && Misread(p.route.Queue(q).install.value.ready, progress)
    case EvDispatch(_, _) =>
      || (Taken(p, e).Some? && Taken(p, e).value.Closed? && Taken(p, e).value.subscription == p.life.subscription
          && Taken(p, e).value.adapterClosed)
      || (Addressed(p, e) && Taken(p, e).value.body.Undecodable?)
      || (Handled(p, e).Some? && BodyFails(p, Handled(p, e).value))
    case _ => false
  }

  /** The transport is lost for the first time since it was last there. */
  predicate Loses(life: Life, e: Event) {
    && !life.detached && !life.transportLost
    && (e.EvTransportLost? || (e.EvRouteChannelClosed? && e.subscription == life.subscription))
  }

  /** A stream of this id that its adapter did not close: the Hub already forgot it. */
  predicate ClosedQuietly(p: Plane, e: Event) {
    && Taken(p, e).Some? && Taken(p, e).value.Closed? && Taken(p, e).value.subscription == p.life.subscription
    && !Taken(p, e).value.adapterClosed
  }

  predicate LastLeaves(life: Life, e: Event) { e.EvUnsubscribe? && !life.detached && life.listeners <= {e.listener} }

  predicate Detaches(life: Life, e: Event) { e.EvDetach? && !life.detached }

  /** Event e resets the attachment. */
  predicate Resets(p: Plane, e: Event) {
    || LosesSnapshot(p, e) || FailsRoute(p, e) || Loses(p.life, e) || ClosedQuietly(p, e)
    || LastLeaves(p.life, e) || Detaches(p.life, e)
  }

  predicate Recovers(life: Life, e: Event) {
    e.EvTransportRecovered? && !life.detached && life.transportLost && life.listeners != {}
  }

  /** A lost snapshot gets a fresh attach: the first one since the last recovery, unless the id is fixed. */
  predicate Reattaches(p: Plane, e: Event) {
    LosesSnapshot(p, e) && p.life.snapshotRecoveries == 0 && !p.life.fixedSubscription
  }

  /** Event e moves to a fresh subscription id. */
  predicate Mints(p: Plane, e: Event) { Reattaches(p, e) || (Recovers(p.life, e) && !p.life.fixedSubscription) }

  // ---------------------------------------------------------------------------
  // When an attach starts and a stream opens.
  // ---------------------------------------------------------------------------

  /** A call that is admitted asks for an attachment. */
  predicate Calls(p: Plane, e: Event) {
    match e
    case EvSubscribe(_) => !p.life.detached
    case EvSendInput(op, _) => !p.life.detached && !op.Paste? && !op.Resize? && Room(p.input, 0, op)
    case EvResize(_) => !p.life.detached
    case EvPaste(units, data) =>
      !p.life.detached && 0 < units <= 1048576 && |data| <= 1048576 && Room(p.input, ConsentBytes(p.input.pending), Paste(data, false))
    case EvConfirm(consent, now) =>
      && p.input.pending.Some? && p.input.pending.value.consent == consent
      && !p.life.detached && consent.generation == p.life.generation && now < consent.expiresAt
      && Room(p.input, |p.input.pending.value.data|, Paste(p.input.pending.value.data, true))
    case _ => false
  }

  /** The queue takes one more operation, counted without these bytes. */
  predicate Room(i: Input, without: nat, op: Operation) {
    |i.queued| < 256 && RetainedBytes(i) - without + op.BodyBytes() <= 2097152
  }

  /** A recovery goes on to attach: at once when no Detach is owed, or when the owed one has settled. */
  predicate GoesOn(p: Plane, e: Event) {
    || (Recovers(p.life, e)
        && (p.life.fixedSubscription || p.life.lastAbandoned.None? || !p.life.lastAbandoned.value.attachSent))
    || (e.EvRecoveryContinues? && p.life.continuations > 0 && !p.life.detached && p.life.listeners != {})
  }

  function ListenersAfter(life: Life, e: Event): set<nat> {
    match e
    case EvSubscribe(l) => life.listeners + {l}
    case EvUnsubscribe(l) => life.listeners - {l}
    case EvDetach => if life.detached then life.listeners else {}
    case _ => life.listeners
  }

  /** An attachment is asked for, and none is pending or open. */
  predicate Asks(p: Plane, e: Event) {
    Reattaches(p, e) || ((Calls(p, e) || GoesOn(p, e)) && p.life.attach.None? && p.life.stream.None?)
  }

  predicate Attaches(p: Plane, e: Event) { Asks(p, e) && ListenersAfter(p.life, e) != {} }

  predicate Opens(p: Plane, e: Event) {
    && e.EvAttachResume? && p.life.attach == Some(AttachTask(e.generation, Acquiring))
    && !p.life.detached && e.generation == p.life.generation && p.life.listeners != {}
  }

  function GenerationAfter(p: Plane, e: Event): nat {
    p.life.generation + (if Resets(p, e) then 1 else 0) + (if Attaches(p, e) then 1 else 0)
  }

  function AttachAfter(p: Plane, e: Event): Option<AttachTask> {
    if Attaches(p, e) then Some(AttachTask(GenerationAfter(p, e), Acquiring))
    else if Asks(p, e) then Some(AttachTask(GenerationAfter(p, e), AttachSettled))
    else if Resets(p, e) then None
    else match e
      case EvAttachResume(g) =>
        if p.life.attach == Some(AttachTask(g, Acquiring))
        then Some(AttachTask(g, if Opens(p, e) then Opening else AttachSettled)) else p.life.attach
      case EvAttachReady(g, _) =>
        if p.life.attach == Some(AttachTask(g, Opening)) then Some(AttachTask(g, AttachSettled)) else p.life.attach
      case EvAttachRejected(g) =>
        if p.life.attach == Some(AttachTask(g, Opening)) then Some(AttachTask(g, AttachSettled)) else p.life.attach
      case EvAttachCleared(g) => if p.life.attach == Some(AttachTask(g, AttachSettled)) then None else p.life.attach
      case _ => p.life.attach
  }

  function StreamAfter(p: Plane, e: Event): Option<Stream> {
    if Resets(p, e) then None
    else if Opens(p, e) then Some(Stream(p.life.generation, p.life.subscription, false))
    else if e.EvAttachSent? && p.life.stream.Some? && p.life.stream.value.generation == e.generation
    then Some(p.life.stream.value.(attachSent := true))
    else p.life.stream
  }

  // ---------------------------------------------------------------------------
  // The law of attachments.
  // ---------------------------------------------------------------------------

  ghost predicate AttachmentIs(p: Plane, e: Event, q: Plane) {
    && q.route.queueId == p.route.queueId + (if Resets(p, e) then 1 else 0)
    && q.life.generation == GenerationAfter(p, e)
    && q.life.attach == AttachAfter(p, e)
    && q.life.stream == StreamAfter(p, e)
    && q.life.listeners == ListenersAfter(p.life, e)
    && q.life.openings == p.life.openings + (if Opens(p, e) then [Held(p.life.subscription, p.life.generation)] else [])
    && q.life.subscription == (if Mints(p, e) then p.life.minted else p.life.subscription)
    && q.life.minted == p.life.minted + (if Mints(p, e) then 1 else 0)
    && q.life.fixedSubscription == p.life.fixedSubscription
  }

  /** What a reset, a fresh id and the start of an attach do, in this order. */
  ghost predicate Moves(p: Plane, q: Plane, resets: bool, mints: bool, asks: bool) {
    && q.route.queueId == p.route.queueId + (if resets then 1 else 0)
    && q.life.listeners == p.life.listeners && q.life.openings == p.life.openings
    && q.life.generation == p.life.generation + (if resets then 1 else 0) + (if asks && p.life.listeners != {} then 1 else 0)
    && q.life.attach ==
       (if asks then Some(AttachTask(q.life.generation, if p.life.listeners != {} then Acquiring else AttachSettled))
        else if resets then None else p.life.attach)
    && q.life.stream == (if resets then None else p.life.stream)
    && q.life.subscription == (if mints then p.life.minted else p.life.subscription)
    && q.life.minted == p.life.minted + (if mints then 1 else 0)
    && q.life.fixedSubscription == p.life.fixedSubscription
  }

  lemma PrimitivesMove(p: Plane)
    ensures Moves(p, p, false, false, false) && Moves(p, PumpPlane(p), false, false, false)
    ensures Moves(p, Reset(p), true, false, false) && Moves(p, CloseStream(p), true, false, false)
    ensures !p.life.detached ==> Moves(p, EnsureAttached(p), false, false, p.life.attach.None? && p.life.stream.None?)
  {
    hide Pump, Abandon;
  }

  lemma RecoverMoves(p: Plane, hydration: nat)
    requires p.route.hydration.Some? && p.route.hydration.value.id == hydration && !p.life.detached
    ensures var again := p.life.snapshotRecoveries == 0 && !p.life.fixedSubscription;
      Moves(p, RecoverRoute(p, hydration), true, again, again)
  {
    hide Abandon;
  }

  /** Seen from a plane with the same attachment. */
  lemma MovesFrom(p: Plane, via: Plane, q: Plane, resets: bool, mints: bool, asks: bool)
    requires Moves(via, q, resets, mints, asks)
    requires via.route.queueId == p.route.queueId && via.life == p.life
    ensures Moves(p, q, resets, mints, asks)
  {
  }

  /** Where the listeners stay and no stream opens, that is the law. */
  lemma MovesAre(p: Plane, e: Event, q: Plane)
    requires Moves(p, q, Resets(p, e), Mints(p, e), Asks(p, e)) && ListenersAfter(p.life, e) == p.life.listeners
    requires !e.EvAttachResume? && !e.EvAttachReady? && !e.EvAttachRejected? && !e.EvAttachCleared? && !e.EvAttachSent?
    ensures AttachmentIs(p, e, q)
  {
    hide Resets, Mints, Asks;
  }

  /** What users' events that are no calls can bring about. */
  lemma SubscribingParts(p: Plane, e: Event)
    requires e.EvSubscribe? || e.EvUnsubscribe? || e.EvBindReader?
    ensures (Resets(p, e) <==> LastLeaves(p.life, e)) && !Mints(p, e) && !Opens(p, e)
    ensures Asks(p, e) <==> e.EvSubscribe? && !p.life.detached && p.life.attach.None? && p.life.stream.None?
  {
  }

  lemma SubscribingAttachment(p: Plane, e: Event)
    requires PlaneOk(p) && (e.EvSubscribe? || e.EvUnsubscribe? || e.EvBindReader?)
    ensures AttachmentIs(p, e, OnUser(p, e))
  {
    hide PlaneOk, Abandon, Resets, Mints, Asks, Opens;
    SubscribingParts(p, e);
  }

  predicate Calling(e: Event) { e.User() && !e.EvSubscribe? && !e.EvUnsubscribe? && !e.EvBindReader? }

  lemma CallAttachment(p: Plane, e: Event)
    requires PlaneOk(p) && Calling(e)
    ensures AttachmentIs(p, e, OnUser(p, e))
  {
    hide PlaneOk, EnsureAttached, PumpPlane, Moves, AttachmentIs, OnUser, Calls, CalledWith, Resets, Mints, Asks;
    var q := CalledWith(p, e);
    CallParts(p, e);
    if Calls(p, e) {
      PrimitivesMove(q);
      PrimitivesMove(EnsureAttached(q));
      MovesOn(q, EnsureAttached(q), PumpPlane(EnsureAttached(q)), p.life.attach.None? && p.life.stream.None?);
      MovesFrom(p, q, PumpPlane(EnsureAttached(q)), false, false, p.life.attach.None? && p.life.stream.None?);
    } else {
      PrimitivesMove(OnUser(p, e));
      MovesFrom(p, OnUser(p, e), OnUser(p, e), false, false, false);
    }
    MovesAre(p, e, OnUser(p, e));
  }

  /** A call that is admitted changes the input, sees to an attachment and pumps; any other changes the input only. */
  lemma CallParts(p: Plane, e: Event)
    requires Calling(e)
    ensures Calls(p, e) ==> OnUser(p, e) == PumpPlane(EnsureAttached(CalledWith(p, e))) && !p.life.detached
    ensures !Calls(p, e) ==> OnUser(p, e) == p.(input := OnUser(p, e).input)
    ensures CalledWith(p, e) == p.(input := CalledWith(p, e).input)
    ensures !Resets(p, e) && !Mints(p, e) && (Asks(p, e) <==> Calls(p, e) && p.life.attach.None? && p.life.stream.None?)
  {
    hide EnsureAttached, PumpPlane, QueuedBytes, InflightBytes;
  }

  /** The plane with the input a call admits. */
  function CalledWith(p: Plane, e: Event): Plane {
    match e
    case EvSendInput(op, n) => p.(input := AdmitInput(p.input, op, n))
    case EvResize(geometry) => p.(input := p.input.(desired := Some(geometry)))
    case EvPaste(_, data) => p.(input := AdmitPaste(BeginPaste(p.input), data))
    case EvConfirm(_, _) => if p.input.pending.Some? then p.(input := AdmitConfirmed(p.input)) else p
    case _ => p
  }

  lemma MovesOn(p: Plane, via: Plane, q: Plane, asks: bool)
    requires Moves(p, via, false, false, asks) && Moves(via, q, false, false, false)
    ensures Moves(p, q, false, false, asks)
  {
  }

  /** Attach progress: nothing but the pending attach and its stream moves. */
  predicate Progressing(e: Event) {
    e.EvAttachResume? || e.EvAttachReady? || e.EvAttachRejected? || e.EvAttachCleared? || e.EvAttachSent?
  }

  lemma ProgressParts(p: Plane, e: Event)
    requires Progressing(e)
    ensures !Resets(p, e) && !Mints(p, e) && !Asks(p, e)
  {
  }

  lemma ProgressAttachment(p: Plane, e: Event)
    requires PlaneOk(p) && Progressing(e)
    ensures AttachmentIs(p, e, OnLifecycle(p, e))
  {
    hide PlaneOk, Resets, Mints, Asks;
    ProgressParts(p, e);
  }

  lemma LossParts(p: Plane, e: Event)
    requires e.EvTransportLost? || e.EvRouteChannelClosed? || e.EvDetach?
    ensures (Resets(p, e) <==> Loses(p.life, e) || Detaches(p.life, e)) && !Mints(p, e) && !Asks(p, e) && !Opens(p, e)
  {
  }

  lemma LossAttachment(p: Plane, e: Event)
    requires PlaneOk(p) && (e.EvTransportLost? || e.EvRouteChannelClosed? || e.EvDetach?)
    ensures AttachmentIs(p, e, OnLifecycle(p, e))
  {
    hide PlaneOk, Abandon, Resets, Mints, Asks, Opens;
    LossParts(p, e);
  }

  /** The plane a recovery goes on from, under the same id or a fresh one. */
  function RecoveredFrom(p: Plane, mints: bool): Plane {
    var life := p.life.(transportLost := false, snapshotRecoveries := 0, lastAbandoned := None,
                        recoveryEpoch := p.life.recoveryEpoch + 1);
    p.(life := if mints then MintSubscription(life) else life)
  }

  lemma RecoveryIs(p: Plane, e: Event)
    requires e.EvTransportRecovered?
    ensures !Recovers(p.life, e) ==> OnLifecycle(p, e) == p
    ensures forall mints :: SameAttachment(p, RecoveredFrom(p, mints), mints)
    ensures Recovers(p.life, e) && GoesOn(p, e) ==>
      OnLifecycle(p, e) == EnsureAttached(RecoveredFrom(p, !p.life.fixedSubscription)) && !p.life.detached
    ensures Recovers(p.life, e) && !GoesOn(p, e) ==> SameAttachment(p, OnLifecycle(p, e), true) && !p.life.fixedSubscription
  {
    hide EnsureAttached;
  }

  /** A recovery moves to a fresh id unless its id is fixed, and attaches unless a Detach is owed first. */
  lemma RecoveryAttachment(p: Plane, e: Event)
    requires PlaneOk(p) && e.EvTransportRecovered?
    ensures AttachmentIs(p, e, OnLifecycle(p, e))
  {
    hide PlaneOk, EnsureAttached, Moves, AttachmentIs, Resets, Mints, Asks, OnLifecycle, GoesOn;
    var q := OnLifecycle(p, e);
    RecoveryKinds(p, e);
    RecoveryIs(p, e);
    PrimitivesMove(p);
    if Recovers(p.life, e) {
      var via := RecoveredFrom(p, Mints(p, e));
      PrimitivesMove(via);
      PrimitivesMove(q);
      MovesWith(p, via, EnsureAttached(via), Mints(p, e));
      MovesWith(p, q, q, true);
    }
    if !Recovers(p.life, e) { NotGoing(p, e); }
    MovesAre(p, e, q);
  }

  lemma NotGoing(p: Plane, e: Event)
    requires e.EvTransportRecovered? && !Recovers(p.life, e)
    ensures !GoesOn(p, e)
  {
  }

  lemma RecoveryKinds(p: Plane, e: Event)
    requires e.EvTransportRecovered?
    ensures !Resets(p, e) && (Mints(p, e) <==> Recovers(p.life, e) && !p.life.fixedSubscription)
    ensures Asks(p, e) <==> GoesOn(p, e) && p.life.attach.None? && p.life.stream.None?
  {
  }

  /** Seen from a plane with the same attachment, under the present id or a fresh one. */
  lemma MovesWith(p: Plane, via: Plane, q: Plane, mints: bool)
    ensures Moves(via, q, false, false, p.life.attach.None? && p.life.stream.None?) && SameAttachment(p, via, mints) ==>
      Moves(p, q, false, mints, p.life.attach.None? && p.life.stream.None?)
    ensures Moves(via, q, false, false, false) && SameAttachment(p, via, mints) ==> Moves(p, q, false, mints, false)
  {
  }

  predicate SameAttachment(p: Plane, q: Plane, mints: bool) {
    && q.route == p.route && q.life.listeners == p.life.listeners && q.life.openings == p.life.openings
    && q.life.generation == p.life.generation && q.life.attach == p.life.attach && q.life.stream == p.life.stream
    && q.life.subscription == (if mints then p.life.minted else p.life.subscription)
    && q.life.minted == p.life.minted + (if mints then 1 else 0)
    && q.life.fixedSubscription == p.life.fixedSubscription
  }

  lemma ContinuationAttachment(p: Plane, e: Event)
    requires PlaneOk(p) && e.EvRecoveryContinues?
    ensures AttachmentIs(p, e, OnLifecycle(p, e))
  {
    hide PlaneOk, EnsureAttached, Moves, AttachmentIs;
    var q := OnLifecycle(p, e);
    PrimitivesMove(p);
    if p.life.continuations > 0 {
      var next := p.(life := p.life.(continuations := p.life.continuations - 1));
      PrimitivesMove(next);
      MovesWith(p, next, q, false);
    }
    MovesAre(p, e, q);
  }

  lemma LifecycleAttachment(p: Plane, e: Event)
    requires PlaneOk(p) && !e.User() && !e.Chain() && !e.Delivery()
    ensures AttachmentIs(p, e, OnLifecycle(p, e))
  {
    hide PlaneOk, AttachmentIs, OnLifecycle;
    match e {
      case EvTransportRecovered => RecoveryAttachment(p, e);
      case EvRecoveryContinues => ContinuationAttachment(p, e);
      case EvTransportLost => LossAttachment(p, e);
      case EvRouteChannelClosed(_) => LossAttachment(p, e);
      case EvDetach => LossAttachment(p, e);
      case _ => ProgressAttachment(p, e);
    }
  }

  lemma ChainAttachment(p: Plane, e: Event)
    requires e.Chain()
    ensures AttachmentIs(p, e, OnChain(p, e))
  {
    hide ChainRun, TerminalInput.SendDone, TerminalInput.SendFail, AbortDone, ChainCatch;
  }

  lemma TimeoutKinds(p: Plane, e: Event)
    requires e.EvHydrationTimeout?
    ensures Resets(p, e) <==> LosesSnapshot(p, e)
    ensures Mints(p, e) <==> LosesSnapshot(p, e) && p.life.snapshotRecoveries == 0 && !p.life.fixedSubscription
    ensures Asks(p, e) <==> Mints(p, e)
  {
  }

  lemma TimeoutAttachment(p: Plane, e: Event)
    requires PlaneOk(p) && e.EvHydrationTimeout?
    ensures AttachmentIs(p, e, OnDelivery(p, e))
  {
    hide PlaneOk, RecoverRoute, Moves, AttachmentIs, Resets, Mints, Asks;
    TimeoutKinds(p, e);
    if LosesSnapshot(p, e) {
      var unarmed := p.(route := p.route.(hydration := Some(p.route.hydration.value.(armed := false))));
      LiveAttachment(p);
      RecoverMoves(unarmed, e.hydration);
      MovesFrom(p, unarmed, OnDelivery(p, e), true, Mints(p, e), Asks(p, e));
    } else {
      PrimitivesMove(p);
    }
    MovesAre(p, e, OnDelivery(p, e));
  }

  lemma ArriveAttachment(p: Plane, e: Event)
    requires e.EvArrive?
    ensures AttachmentIs(p, e, OnDelivery(p, e))
  {
  }

  predicate Reading(e: Event) { e.EvStartInstall? || e.EvReaderDone? || e.EvReaderFailed? }

  lemma InstallAttachment(p: Plane, e: Event)
    requires PlaneOk(p) && Reading(e)
    ensures AttachmentIs(p, e, OnDelivery(p, e))
  {
    hide PlaneOk, CloseStream, RecoverRoute, Moves, AttachmentIs, Resets, Mints, Asks, LosesSnapshot, FailsRoute, OnDelivery;
    var q, ended := OnDelivery(p, e), EndInstall(p, e.queue);
    PrimitivesMove(q);
    PrimitivesMove(ended);
    ReadingParts(p, e);
    if LosesSnapshot(p, e) {
      RecoverMoves(ended, p.route.hydration.value.id);
      MovesFrom(p, ended, q, true, Mints(p, e), Asks(p, e));
    } else if FailsRoute(p, e) {
      InstallFails(p, e);
      MovesFrom(p, ended, q, true, false, false);
    } else {
      InstallStays(p, e);
      MovesFrom(p, q, q, false, false, false);
    }
    MovesAre(p, e, q);
  }

  lemma ReadingParts(p: Plane, e: Event)
    requires Reading(e)
    ensures Resets(p, e) <==> LosesSnapshot(p, e) || FailsRoute(p, e)
    ensures Mints(p, e) <==> LosesSnapshot(p, e) && p.life.snapshotRecoveries == 0 && !p.life.fixedSubscription
    ensures Asks(p, e) <==> Mints(p, e)
    ensures LosesSnapshot(p, e) ==>
      && p.route.hydration.Some? && !p.life.detached
      && OnDelivery(p, e) == RecoverRoute(EndInstall(p, e.queue), p.route.hydration.value.id)
  {
    hide RecoverRoute;
  }

  lemma InstallFails(p: Plane, e: Event)
    requires Reading(e) && FailsRoute(p, e)
    ensures OnDelivery(p, e) == CloseStream(EndInstall(p, e.queue))
  {
    hide CloseStream, EndInstall;
  }

  lemma InstallStays(p: Plane, e: Event)
    requires Reading(e) && !FailsRoute(p, e) && !LosesSnapshot(p, e)
    ensures OnDelivery(p, e).life == p.life && OnDelivery(p, e).route.queueId == p.route.queueId && OnDelivery(p, e).input == p.input
  {
    hide CloseStream, RecoverRoute;
  }

  lemma LiveAttachment(p: Plane)
    requires PlaneOk(p) && p.route.hydration.Some?
    ensures p.life.stream.Some? && !p.life.detached && p.route.hydration.value.generation == p.life.generation
  {
    hide InputOk, QueuesOk, SerialOk, OutputOk, DetachOk, ReattachOk, OpeningsOk;
  }

  lemma BodyAttachment(p: Plane, e: Event, serial: nat)
    requires PlaneOk(p) && p.life.stream.Some? && Handled(p, e).Some?
    ensures AttachmentIs(p, e, HandleBody(Past(p, e), e.queue, serial, p.life.generation, Handled(p, e).value, e.now))
  {
    hide PlaneOk, Reset, CloseStream, RecoverRoute, Moves, AttachmentIs, EpochPasses, PumpPlane, SettleResult, Overflows, Overflowing;
    var past, body := Past(p, e), Handled(p, e).value;
    var q := HandleBody(past, e.queue, serial, p.life.generation, body, e.now);
    HydrationIsThere(p);
    LiveAttachment(p);
    PrimitivesMove(past);
    PrimitivesMove(q);
    if body.Output? && !LiveScreen(p) { CounterDecides(p, body.payload); }
    if LiveScreen(p) { LiveNeverOverflows(p); }
    if BodyLoses(p, body) {
      RecoverMoves(past, past.route.hydration.value.id);
      MovesFrom(p, past, q, true, Mints(p, e), Asks(p, e));
    } else if BodyFails(p, body) {
      MovesFrom(p, past, q, true, false, false);
    } else {
      BodyKeepsAttachment(p, e, serial);
    }
    MovesAre(p, e, q);
  }

  lemma BodyKeepsAttachment(p: Plane, e: Event, serial: nat)
    requires PlaneOk(p) && p.life.stream.Some? && Handled(p, e).Some?
    requires !BodyLoses(p, Handled(p, e).value) && !BodyFails(p, Handled(p, e).value)
    ensures Moves(p, HandleBody(Past(p, e), e.queue, serial, p.life.generation, Handled(p, e).value, e.now), false, false, false)
  {
    hide InputOk, QueuesOk, SerialOk, OutputOk, DetachOk, ReattachOk, OpeningsOk, Reset, CloseStream, RecoverRoute, Pump, SettleResult,
         Overflows, Overflowing;
    if Handled(p, e).value.Output? && !LiveScreen(p) { CounterDecides(p, Handled(p, e).value.payload); }
  }

  lemma LiveNeverOverflows(p: Plane)
    requires LiveScreen(p)
    ensures forall data :: !Overflowing(p, data)
  {
  }

  lemma DispatchAttachment(p: Plane, e: Event)
    requires PlaneOk(p) && e.EvDispatch?
    ensures AttachmentIs(p, e, Step(p, e))
  {
    hide PlaneOk, HandleBody, Reset, CloseStream, Moves, AttachmentIs, EpochPasses, BodyLoses, BodyFails;
    DispatchParts(p, e);
    PrimitivesMove(p);
    if Handled(p, e).Some? {
      BodyAttachment(p, e, p.route.Queue(e.queue).items[0].serial);
    } else if Dispatches(p, e.queue) {
      var popped := Popped(p, e.queue);
      PrimitivesMove(popped);
      MovesFrom(p, popped, popped, false, false, false);
      MovesFrom(p, popped, CloseStream(popped), true, false, false);
      MovesFrom(p, popped, Reset(popped), true, false, false);
      if Fenced(p, e) {
        PrimitivesMove(Past(p, e));
        MovesFrom(p, Past(p, e), Past(p, e), false, false, false);
      }
      MovesAre(p, e, Step(p, e));
    } else {
      MovesAre(p, e, Step(p, e));
    }
  }

  /** When an attachment is reset, when the next one starts, when its stream opens, and under which id: for
      every event of every reachable state. */
  lemma AttachmentExact(p: Plane, e: Event)
    requires PlaneOk(p)
    ensures AttachmentIs(p, e, Step(p, e))
  {
    hide PlaneOk, AttachmentIs, OnUser, OnChain, OnDelivery, OnLifecycle;
    if e.User() {
      if e.EvSubscribe? || e.EvUnsubscribe? || e.EvBindReader? { SubscribingAttachment(p, e); } else { CallAttachment(p, e); }
    } else if e.Chain() {
      ChainAttachment(p, e);
    } else if e.Delivery() {
      DeliveryAttachment(p, e);
    } else {
      LifecycleAttachment(p, e);
    }
  }

  lemma DeliveryAttachment(p: Plane, e: Event)
    requires PlaneOk(p) && e.Delivery()
    ensures AttachmentIs(p, e, Step(p, e))
  {
    hide PlaneOk, AttachmentIs, OnDelivery;
    match e {
      case EvDispatch(_, _) => DispatchAttachment(p, e);
      case EvArrive(_, _) => ArriveAttachment(p, e);
      case EvHydrationTimeout(_) => TimeoutAttachment(p, e);
      case _ => InstallAttachment(p, e);
    }
  }
}
