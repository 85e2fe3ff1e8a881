/** What each event does to the route, field by field: the fences, the hydration, the segments, the event queues
    and what the listeners receive; and, over every run, which payloads are admitted, by the epoch and the route
    generation read off what was handled before. */
module TerminalRouteEffects {
  import opened Wrappers
  import opened TerminalInput
  import opened TerminalInputProofs
  import opened TerminalPlane
  import opened TerminalPlaneProofs
  import opened TerminalHistory
  import opened TerminalOutputTheorems
  import opened TerminalEffects

  // ---------------------------------------------------------------------------
  // What becomes of each field.
  // ---------------------------------------------------------------------------

  /** A fresh hydration begins: a stream opens, or a resync passes both fences. */
  predicate Begins(p: Plane, e: Event) {
    Opens(p, e) || (Handled(p, e).Some? && Handled(p, e).value.RouteResync?)
  }

  /** ATTACH_STATE attached starts the epochs at 0, a resync moves to its target. */
  function EpochAfter(p: Plane, e: Event): Option<nat> {
    if Resets(p, e) || Opens(p, e) then None
    else if Handled(p, e).Some? && Handled(p, e).value == AttachStateFrame(Attached) then Some(0)
    else if Handled(p, e).Some? && Handled(p, e).value.RouteResync? then Some(Handled(p, e).value.toEpoch)
    else p.route.acceptedEpoch
  }

  /** The stream's reservation arrives on the attachment it was made for. */
  predicate Reserves(p: Plane, e: Event) {
    && e.EvAttachReady? && p.life.attach == Some(AttachTask(e.generation, Opening))
    && !p.life.detached && e.generation == p.life.generation
  }

  /** The first frame that decodes under the present id fixes the route generation, a reservation replaces it. */
  function RouteGenerationAfter(p: Plane, e: Event): Option<nat> {
    if Resets(p, e) || Opens(p, e) then None
    else if Fenced(p, e) then Some(Taken(p, e).value.generation)
    else if Reserves(p, e) && e.reserved.Some? then e.reserved
    else p.route.routeGeneration
  }

  function Fresh(p: Plane): Hydration {
    Hydration(p.route.nextHydration, p.life.generation, [], 0, None, false, false, false, false, false, p.route.readerBound)
  }

  /** The reader's report fits the frame of the running hydration it was given. */
  predicate Reports(p: Plane, e: Event) {
    && e.EvReaderDone? && Installing(p, e.queue, true)
    && !Misread(p.route.Queue(e.queue).install.value.ready, e.progress)
  }

  function HydrationAfter(p: Plane, e: Event): Option<Hydration> {
    if Resets(p, e) then None
    else if Opens(p, e) then Some(Fresh(p))
    else if p.route.hydration.None? then None
    else if Handled(p, e).Some? then Some(HandledBy(p, p.route.hydration.value, Handled(p, e).value, p.route.Queue(e.queue).items[0].serial))
    else if Reserves(p, e) then Some(p.route.hydration.value.(armed := p.route.hydration.value.armed || !LiveScreen(p)))
    else if Reports(p, e) then Some(ReportedTo(p.route.hydration.value, e.progress))
    else p.route.hydration
  }

  /** What a passing frame makes of the hydration that runs: payloads and an exit are held until FINISH, a resync
      starts over with its bound armed. */
  function HandledBy(p: Plane, h: Hydration, body: Body, serial: nat): Hydration {
    match body
    case RouteResync(_, _) => Fresh(p).(armed := true)
    case Output(payload) =>
      if h.completed then h
      else h.(buffered := h.buffered + [Item(serial, payload)], bufferedBytes := h.bufferedBytes + |payload|)
    case ProcessExit(code) => if h.completed then h else h.(pendingExit := Some(code))
    case SnapshotFinish =>
      if h.completed then h
      else h.(completed := true, armed := false, buffered := [], bufferedBytes := 0,
              historyIncomplete := h.historyIncomplete || !h.decoderFinished)
    case HistoryUnavailable => h.(historyIncomplete := true)
    case _ => h
  }

  /** A report that fits re-arms the progress bound of a screen not yet live. */
  function ReportedTo(h: Hydration, progress: Progress): Hydration {
    var armed := h.(armed := h.armed || !h.completed);
    match progress
    case ReaderReady => armed.(readyReceived := true)
    case ReaderFinish => armed.(decoderFinished := true)
    case _ => armed
  }

  function SegmentsAfter(p: Plane, e: Event): seq<Segment> {
    var segments := p.route.segments;
    if Begins(p, e) then segments + [Segment(p.life.generation, [], false)]
    else if Handled(p, e).None? || segments == [] || Resets(p, e) then segments
    else
      var front, last := segments[..|segments| - 1], segments[|segments| - 1];
      match Handled(p, e).value
      case Output(payload) =>
        front + [last.(admitted := last.admitted + [Item(p.route.Queue(e.queue).items[0].serial, payload)])]
      case SnapshotFinish => front + [last.(finished := true)]
      case _ => segments
  }

  function QueueAfter(p: Plane, e: Event, q: nat): EventQueue {
    var queue := p.route.Queue(q);
    match e
    case EvArrive(tag, event) =>
      if q == p.route.queueId && Delivers(p.life, tag)
      then queue.(items := queue.items + [Arrival(|p.route.arrivals|, tag, event)]) else queue
    case EvDispatch(r, _) =>
      if q != r || !Dispatches(p, q) then queue
      else EventQueue(queue.items[1..], if Handled(p, e).Some? then InstallOf(p, Handled(p, e).value) else None)
    case EvStartInstall(r) =>
      if q != r || queue.install.None? || queue.install.value.reading then queue
      else if Installing(p, q, false) && !FailsRoute(p, e) && !Skipped(p) then queue.(install := Some(queue.install.value.(reading := true)))
      else queue.(install := None)
    case EvReaderDone(r, _) => if q == r then Released(queue) else queue
    case EvReaderFailed(r) => if q == r then Released(queue) else queue
    case _ => queue
  }

  /** Snapshot frames after the end of the history are dropped. */
  predicate Skipped(p: Plane) {
    p.route.hydration.Some? && (p.route.hydration.value.historyIncomplete || p.route.hydration.value.decoderFinished)
  }

  function Released(queue: EventQueue): EventQueue {
    if queue.install.Some? && queue.install.value.reading then queue.(install := None) else queue
  }

  /** A snapshot frame blocks its queue until it is installed. */
  function InstallOf(p: Plane, body: Body): Option<Install> {
    if (body.SnapshotReady? || body.SnapshotHistory?) && p.route.hydration.Some?
    then Some(Install(p.route.hydration.value.id, p.life.generation, body.SnapshotReady?, false)) else None
  }

  function ArrivalsAfter(p: Plane, e: Event): seq<StreamEvent> {
    p.route.arrivals + if e.EvArrive? && Delivers(p.life, e.tag) then [e.event] else []
  }

  ghost predicate RouteIs(p: Plane, e: Event, q: Plane) {
    && q.route.acceptedEpoch == EpochAfter(p, e)
    && q.route.routeGeneration == RouteGenerationAfter(p, e)
    && q.route.hydration == HydrationAfter(p, e)
    && q.route.nextHydration == p.route.nextHydration + (if Begins(p, e) then 1 else 0)
    && q.route.segments == SegmentsAfter(p, e)
    && q.route.arrivals == ArrivalsAfter(p, e)
    && q.route.readerBound == (p.route.readerBound || e.EvBindReader?)
  }

  ghost predicate QueuesAre(p: Plane, e: Event, q: Plane) {
    forall r: nat :: q.route.Queue(r) == QueueAfter(p, e, r)
  }

  // ---------------------------------------------------------------------------
  // The route law, kind by kind.
  // ---------------------------------------------------------------------------

  /** What a reset leaves of the route. */
  function Cleared(route: Route): Route {
    route.(attached := false, routeGeneration := None, acceptedEpoch := None, hydration := None, queueId := route.queueId + 1)
  }

  lemma ClosingClears(p: Plane, hydration: nat)
    ensures Reset(p).route == Cleared(p.route) && CloseStream(p).route == Cleared(p.route)
    ensures p.route.hydration.Some? && p.route.hydration.value.id == hydration ==> RecoverRoute(p, hydration).route == Cleared(p.route)
  {
    hide Abandon, SendDetachOnce;
  }

  /** The same route but for its queues and the admitted generation. */
  predicate SameRoute(r: Route, s: Route) { s == r.(queues := s.queues, routeGeneration := s.routeGeneration) }

  lemma ClearedIs(p: Plane, e: Event, via: Route, q: Plane)
    requires Resets(p, e) && SameRoute(p.route, via) && q.route == Cleared(via)
    requires !Opens(p, e) && !e.EvArrive? && !e.EvBindReader? && (Handled(p, e).Some? ==> !Handled(p, e).value.RouteResync?)
    ensures RouteIs(p, e, q)
  {
    hide Resets, Opens;
  }

  /** Nothing of the route moves but its queues. */
  predicate Idle(p: Plane, e: Event) {
    && !Resets(p, e) && !Opens(p, e) && !Fenced(p, e) && !Reserves(p, e) && !Reports(p, e) && !e.EvArrive? && !e.EvBindReader?
  }

  lemma IdleIs(p: Plane, e: Event, q: Plane)
    requires Idle(p, e) && q.route == p.route.(queues := q.route.queues)
    ensures RouteIs(p, e, q)
  {
    hide Resets, Opens, Fenced, Reports;
  }

  lemma UserRoute(p: Plane, e: Event)
    requires PlaneOk(p) && e.User()
    ensures RouteIs(p, e, OnUser(p, e)) && QueuesAre(p, e, OnUser(p, e))
  {
    hide PlaneOk, RouteIs, Resets, OnUser, Cleared, QueuesAre;
    UserKeepsRoute(p, e);
    UserQueues(p, e);
    if LastLeaves(p.life, e) {
      LeavingRoute(p, e);
      ClearedIs(p, e, p.route, OnUser(p, e));
    } else if e.EvBindReader? {
      BoundReader(p, e);
    } else {
      IdleIs(p, e, OnUser(p, e));
    }
  }

  lemma LeavingRoute(p: Plane, e: Event)
    requires LastLeaves(p.life, e)
    ensures OnUser(p, e).route == Cleared(p.route)
  {
    hide CloseStream;
    ClosingClears(p.(life := p.life.(listeners := p.life.listeners - {e.listener})), 0);
  }

  lemma UserQueues(p: Plane, e: Event)
    requires PlaneOk(p) && e.User()
    ensures QueuesAre(p, e, OnUser(p, e))
  {
    hide PlaneOk, CloseStream, Cleared;
    UserKeepsRoute(p, e);
    if LastLeaves(p.life, e) {
      LeavingRoute(p, e);
      assert Cleared(p.route).queues == p.route.queues by { ClearedQueues(p.route); }
    }
  }

  lemma ClearedQueues(route: Route)
    ensures Cleared(route).queues == route.queues
  {
  }

  lemma UserKeepsRoute(p: Plane, e: Event)
    requires PlaneOk(p) && e.User()
    ensures LastLeaves(p.life, e) || e.EvBindReader? || OnUser(p, e).route == p.route
    ensures Resets(p, e) <==> LastLeaves(p.life, e)
  {
    hide InputOk, QueuesOk, SerialOk, OutputOk, DetachOk, ReattachOk, OpeningsOk, CloseStream, Pump, AdmitInput, AdmitPaste, Admits,
         AdmitConfirmed;
  }

  lemma BoundReader(p: Plane, e: Event)
    requires e.EvBindReader?
    ensures RouteIs(p, e, OnUser(p, e))
  {
  }

  lemma ChainRoute(p: Plane, e: Event)
    requires e.Chain()
    ensures RouteIs(p, e, OnChain(p, e)) && QueuesAre(p, e, OnChain(p, e))
  {
    hide ChainRun, TerminalInput.SendDone, TerminalInput.SendFail, AbortDone, ChainCatch, RouteIs;
    IdleIs(p, e, OnChain(p, e));
  }

  lemma OpenedRoute(p: Plane, e: Event)
    requires PlaneOk(p) && Opens(p, e)
    ensures RouteIs(p, e, OnLifecycle(p, e))
  {
    hide InputOk, QueuesOk, SerialOk, OutputOk, DetachOk, ReattachOk, OpeningsOk;
  }

  lemma ReservedRoute(p: Plane, e: Event)
    requires PlaneOk(p) && Reserves(p, e)
    ensures RouteIs(p, e, OnLifecycle(p, e))
  {
    hide InputOk, QueuesOk, SerialOk, OutputOk, DetachOk, ReattachOk, OpeningsOk;
  }

  lemma LifecycleRoute(p: Plane, e: Event)
    requires PlaneOk(p) && !e.User() && !e.Chain() && !e.Delivery()
    ensures RouteIs(p, e, OnLifecycle(p, e)) && QueuesAre(p, e, OnLifecycle(p, e))
  {
    hide PlaneOk, RouteIs, Resets, Reset, EnsureAttached, Cleared, EnsureHydration;
    LifecycleKeepsRoute(p, e);
    if Loses(p.life, e) || Detaches(p.life, e) {
      ClearedIs(p, e, p.route, OnLifecycle(p, e));
    } else if Opens(p, e) {
      OpenedRoute(p, e);
    } else if Reserves(p, e) {
      ReservedRoute(p, e);
    } else {
      IdleIs(p, e, OnLifecycle(p, e));
    }
  }

  lemma LifecycleKeepsRoute(p: Plane, e: Event)
    requires PlaneOk(p) && !e.User() && !e.Chain() && !e.Delivery()
    ensures Resets(p, e) <==> Loses(p.life, e) || Detaches(p.life, e)
    ensures Resets(p, e) ==> OnLifecycle(p, e).route == Cleared(p.route)
    ensures OnLifecycle(p, e).route.queues == p.route.queues
    ensures !Resets(p, e) && !Opens(p, e) && !Reserves(p, e) ==> OnLifecycle(p, e).route == p.route
  {
    hide PlaneOk, Resets, Abandon, SendDetachOnce;
    LifecycleResets(p, e);
    UnattachedRoute(p);
  }

  lemma LifecycleResets(p: Plane, e: Event)
    requires !e.User() && !e.Chain() && !e.Delivery()
    ensures Resets(p, e) <==> Loses(p.life, e) || Detaches(p.life, e)
  {
  }

  lemma UnattachedRoute(p: Plane)
    requires PlaneOk(p)
    ensures p.life.stream.None? ==> !p.route.attached
  {
    hide InputOk, QueuesOk, SerialOk, OutputOk, DetachOk, ReattachOk, OpeningsOk;
  }

  lemma ArriveRoute(p: Plane, e: Event)
    requires e.EvArrive?
    ensures RouteIs(p, e, OnDelivery(p, e)) && QueuesAre(p, e, OnDelivery(p, e))
  {
  }

  lemma TimeoutRoute(p: Plane, e: Event)
    requires PlaneOk(p) && e.EvHydrationTimeout?
    ensures RouteIs(p, e, OnDelivery(p, e)) && QueuesAre(p, e, OnDelivery(p, e))
  {
    hide PlaneOk, RecoverRoute, RouteIs;
    if LosesSnapshot(p, e) {
      var unarmed := p.(route := p.route.(hydration := Some(p.route.hydration.value.(armed := false))));
      ClosingClears(unarmed, e.hydration);
      assert OnDelivery(p, e).route == Cleared(p.route);
      ClearedIs(p, e, p.route, OnDelivery(p, e));
    } else {
      IdleIs(p, e, p);
    }
  }

  lemma InstallRoute(p: Plane, e: Event)
    requires PlaneOk(p) && Reading(e)
    ensures RouteIs(p, e, OnDelivery(p, e)) && QueuesAre(p, e, OnDelivery(p, e))
  {
    hide PlaneOk, CloseStream, RecoverRoute, RouteIs, Resets, LosesSnapshot, FailsRoute, OnDelivery, QueuesAre;
    var q, ended := OnDelivery(p, e), EndInstall(p, e.queue);
    ReadingParts(p, e);
    InstallQueues(p, e);
    if Resets(p, e) {
      if FailsRoute(p, e) { InstallFails(p, e); }
      if p.route.hydration.Some? { ClosingClears(ended, p.route.hydration.value.id); }
      ResetWithInstall(p, e);
      ClearedIs(p, e, ended.route, q);
    } else if Reports(p, e) {
      ReportRoute(p, e);
    } else {
      QuietInstall(p, e);
      IdleIs(p, e, q);
    }
  }

  lemma ResetWithInstall(p: Plane, e: Event)
    requires Reading(e) && (LosesSnapshot(p, e) || FailsRoute(p, e))
    ensures p.route.hydration.Some?
  {
  }

  lemma InstallQueues(p: Plane, e: Event)
    requires Reading(e)
    ensures QueuesAre(p, e, OnDelivery(p, e))
  {
    hide CloseStream, RecoverRoute, Misread, QueuesAre;
    var ended := EndInstall(p, e.queue);
    ClosingQueues(ended);
    if p.route.hydration.Some? { RecoveringQueues(ended, p.route.hydration.value.id); }
    if e.EvStartInstall? { StartedQueues(p, e); } else { ReadQueues(p, e); }
  }

  lemma StartedQueues(p: Plane, e: Event)
    requires e.EvStartInstall? && CloseStream(EndInstall(p, e.queue)).route.queues == EndInstall(p, e.queue).route.queues
    ensures QueuesAre(p, e, OnDelivery(p, e))
  {
    hide CloseStream;
  }

  lemma ReadQueues(p: Plane, e: Event)
    requires e.EvReaderDone? || e.EvReaderFailed?
    requires var ended := EndInstall(p, e.queue);
      && CloseStream(ended).route.queues == ended.route.queues
      && (p.route.hydration.Some? ==> RecoverRoute(ended, p.route.hydration.value.id).route.queues == ended.route.queues)
    ensures QueuesAre(p, e, OnDelivery(p, e))
  {
    hide CloseStream, RecoverRoute;
  }

  lemma ClosingQueues(p: Plane)
    ensures CloseStream(p).route.queues == p.route.queues
  {
    hide Abandon, SendDetachOnce;
  }

  lemma RecoveringQueues(p: Plane, hydration: nat)
    ensures RecoverRoute(p, hydration).route.queues == p.route.queues
  {
    hide Abandon, SendDetachOnce;
  }

  lemma ReportRoute(p: Plane, e: Event)
    requires Reports(p, e) && !Resets(p, e)
    ensures RouteIs(p, e, OnDelivery(p, e))
  {
    hide Resets, CloseStream, SegmentsAfter, OnDelivery, RouteIs;
    ReportDone(p, e);
    ReportIs(p, e, OnDelivery(p, e));
  }

  lemma EndedRoute(p: Plane, q: nat)
    ensures EndInstall(p, q).route == p.route.(queues := EndInstall(p, q).route.queues)
  {
  }

  lemma ReportDone(p: Plane, e: Event)
    requires Reports(p, e)
    ensures var h := ReportedTo(p.route.hydration.value, e.progress);
      OnDelivery(p, e).route == p.route.(queues := OnDelivery(p, e).route.queues, hydration := Some(h))
  {
    hide CloseStream, EndInstall;
    EndedRoute(p, e.queue);
    match e.progress {
      case ReaderReady =>
      case ReaderPage =>
      case ReaderFinish =>
      case ReaderUnknown =>
    }
  }

  lemma ReportIs(p: Plane, e: Event, q: Plane)
    requires Reports(p, e) && !Resets(p, e)
    requires q.route == p.route.(queues := q.route.queues, hydration := Some(ReportedTo(p.route.hydration.value, e.progress)))
    ensures RouteIs(p, e, q)
  {
    hide Resets, ReportedTo;
  }

  lemma QuietInstall(p: Plane, e: Event)
    requires Reading(e) && !Resets(p, e) && !Reports(p, e)
    ensures OnDelivery(p, e).route == p.route.(queues := OnDelivery(p, e).route.queues)
  {
    hide CloseStream, RecoverRoute;
  }

  /** What a passing frame comes down to. */
  function AfterBody(p: Plane, e: Event): Plane
    requires Handled(p, e).Some?
  {
    HandleBody(Past(p, e), e.queue, p.route.Queue(e.queue).items[0].serial, p.life.generation, Handled(p, e).value, e.now)
  }

  ghost predicate Current(p: Plane, e: Event) {
    PlaneOk(p) && Handled(p, e).Some? && p.life.stream.Some? && e.queue == p.route.queueId && !Resets(p, e)
  }

  lemma OutputRoute(p: Plane, e: Event)
    requires Current(p, e) && Handled(p, e).value.Output?
    ensures RouteIs(p, e, AfterBody(p, e))
  {
    hide PlaneOk, RecoverRoute, Overflows, Overflowing, Resets, EpochPasses;
    OverflowResets(p, e);
    HydrationIsThere(p);
    LiveAttachment(p);
    SegmentsThere(p);
    if !LiveScreen(p) { CounterDecides(p, Handled(p, e).value.payload); }
  }

  lemma OverflowResets(p: Plane, e: Event)
    requires Handled(p, e).Some? && Handled(p, e).value.Output? && !Resets(p, e)
    ensures !Overflowing(p, Handled(p, e).value.payload)
  {
    hide Overflowing;
  }

  lemma FinishRoute(p: Plane, e: Event)
    requires Current(p, e) && Handled(p, e).value.SnapshotFinish?
    ensures RouteIs(p, e, AfterBody(p, e))
  {
    hide InputOk, QueuesOk, SerialOk, DetachOk, ReattachOk, OpeningsOk, CloseStream, Pump, EpochPasses, Admitted, Finished, BufferedBytes;
    HydrationIsThere(p);
    SegmentsThere(p);
  }

  lemma ResyncRoute(p: Plane, e: Event)
    requires Current(p, e) && Handled(p, e).value.RouteResync?
    ensures RouteIs(p, e, AfterBody(p, e))
  {
    hide PlaneOk, Resets, EpochPasses;
    HydrationIsThere(p);
  }

  lemma OtherRoute(p: Plane, e: Event)
    requires Current(p, e)
    requires !Handled(p, e).value.RouteResync? && !Handled(p, e).value.SnapshotFinish? && !Handled(p, e).value.Output?
    ensures RouteIs(p, e, AfterBody(p, e))
  {
    hide PlaneOk, CloseStream, RecoverRoute, Pump, SettleResult, EpochPasses, Overflowing;
    HydrationIsThere(p);
    LiveAttachment(p);
    SegmentsThere(p);
  }

  predicate Installs(body: Body) { body.SnapshotReady? || body.SnapshotHistory? }

  lemma BodyKeepsQueues(p: Plane, e: Event)
    requires PlaneOk(p) && Handled(p, e).Some? && p.life.stream.Some? && !Installs(Handled(p, e).value)
    ensures AfterBody(p, e).route.queues == Past(p, e).route.queues
  {
    hide PlaneOk, CloseStream, RecoverRoute, Pump, SettleResult, EpochPasses, Overflows, AdmitToLast, FinishLast;
    HydrationIsThere(p);
    var past := Past(p, e);
    ClosingQueues(past);
    if past.route.hydration.Some? { RecoveringQueues(past, past.route.hydration.value.id); }
  }

  lemma BodyQueues(p: Plane, e: Event)
    requires PlaneOk(p) && Handled(p, e).Some? && p.life.stream.Some? && e.queue == p.route.queueId
    ensures QueuesAre(p, e, AfterBody(p, e))
  {
    hide PlaneOk, EpochPasses;
    HydrationIsThere(p);
    if !Installs(Handled(p, e).value) {
      hide HandleBody;
      BodyKeepsQueues(p, e);
    }
  }

  lemma BodyRoute(p: Plane, e: Event)
    requires Current(p, e)
    ensures RouteIs(p, e, AfterBody(p, e))
  {
    hide PlaneOk, Resets, RouteIs, AfterBody;
    if Handled(p, e).value.Output? {
      OutputRoute(p, e);
    } else if Handled(p, e).value.SnapshotFinish? {
      FinishRoute(p, e);
    } else if Handled(p, e).value.RouteResync? {
      ResyncRoute(p, e);
    } else {
      OtherRoute(p, e);
    }
  }

  /** A frame that loses the snapshot or fails the route. */
  lemma BodyResets(p: Plane, e: Event)
    requires PlaneOk(p) && Handled(p, e).Some? && p.life.stream.Some? && Resets(p, e)
    ensures SameRoute(p.route, Past(p, e).route) && AfterBody(p, e).route == Cleared(Past(p, e).route) && !Handled(p, e).value.RouteResync?
  {
    hide PlaneOk, CloseStream, RecoverRoute, Pump, SettleResult, EpochPasses, Overflows, Overflowing, Cleared;
    HydrationIsThere(p);
    LiveAttachment(p);
    var past := Past(p, e);
    ClosingClears(past, past.route.hydration.value.id);
    if Handled(p, e).value.Output? && !LiveScreen(p) { CounterDecides(p, Handled(p, e).value.payload); }
    if LiveScreen(p) { LiveNeverOverflows(p); }
  }

  lemma DispatchRoute(p: Plane, e: Event)
    requires PlaneOk(p) && e.EvDispatch?
    ensures RouteIs(p, e, Step(p, e)) && QueuesAre(p, e, Step(p, e))
  {
    hide PlaneOk, HandleBody, CloseStream, Reset, RouteIs, QueuesAre, Resets, Cleared;
    DispatchParts(p, e);
    if Handled(p, e).Some? {
      BodyQueues(p, e);
      if Resets(p, e) {
        BodyResets(p, e);
        ClearedIs(p, e, Past(p, e).route, Step(p, e));
      } else {
        BodyRoute(p, e);
      }
    } else {
      UnhandledRoute(p, e);
    }
  }

  lemma UnhandledRoute(p: Plane, e: Event)
    requires PlaneOk(p) && e.EvDispatch? && Handled(p, e).None?
    ensures RouteIs(p, e, Step(p, e)) && QueuesAre(p, e, Step(p, e))
  {
    hide PlaneOk, HandleBody, CloseStream, Reset, RouteIs, Cleared, EpochPasses;
    DispatchParts(p, e);
    if Dispatches(p, e.queue) {
      ClosingClears(Popped(p, e.queue), 0);
      ClosingQueues(Popped(p, e.queue));
    }
    if Resets(p, e) {
      ClearedIs(p, e, Popped(p, e.queue).route, Step(p, e));
    } else if Fenced(p, e) {
      FencedOnly(p, e, Step(p, e));
    } else {
      IdleIs(p, e, Step(p, e));
    }
  }

  lemma FencedOnly(p: Plane, e: Event, q: Plane)
    requires Fenced(p, e) && Handled(p, e).None? && q.route == Past(p, e).route && !Resets(p, e)
    ensures RouteIs(p, e, q)
  {
    hide Resets, EpochPasses;
  }

  /** The fences, the hydration, the segments and the queues: for every event of every reachable state. */
  lemma RouteExact(p: Plane, e: Event)
    requires PlaneOk(p)
    ensures RouteIs(p, e, Step(p, e)) && QueuesAre(p, e, Step(p, e))
    ensures Step(p, e).route.attached <==> EpochAfter(p, e).Some?
  {
    hide PlaneOk, RouteIs, QueuesAre, OnUser, OnChain, OnDelivery, OnLifecycle, EpochAfter;
    if e.User() {
      UserRoute(p, e);
    } else if e.Chain() {
      ChainRoute(p, e);
    } else if e.Delivery() {
      DeliveryRoute(p, e);
    } else {
      LifecycleRoute(p, e);
    }
    StepOk(p, e);
    AttachedIs(p, e, Step(p, e));
  }

  lemma AttachedIs(p: Plane, e: Event, q: Plane)
    requires PlaneOk(q) && RouteIs(p, e, q)
    ensures q.route.attached <==> EpochAfter(p, e).Some?
  {
    hide InputOk, QueuesOk, SerialOk, OutputOk, DetachOk, ReattachOk, OpeningsOk;
  }

  lemma DeliveryRoute(p: Plane, e: Event)
    requires PlaneOk(p) && e.Delivery()
    ensures RouteIs(p, e, Step(p, e)) && QueuesAre(p, e, Step(p, e))
  {
    hide PlaneOk, RouteIs, QueuesAre, OnDelivery;
    match e {
      case EvDispatch(_, _) => DispatchRoute(p, e);
      case EvArrive(_, _) => ArriveRoute(p, e);
      case EvHydrationTimeout(_) => TimeoutRoute(p, e);
      case _ => InstallRoute(p, e);
    }
  }

  // ---------------------------------------------------------------------------
  // Admission over runs.
  // ---------------------------------------------------------------------------

  /** The route generation and the epoch a run has fixed so far. */
  datatype Fences = Fences(generation: Option<nat>, epoch: Option<nat>)

  /** The frame body that passes these fences, if event e takes one. */
  function Passing(p: Plane, e: Event, fences: Fences): Option<Body> {
    if Addressed(p, e) && !Taken(p, e).value.body.Undecodable?
       && (fences.generation.Some? ==> fences.generation.value == Taken(p, e).value.generation)
       && EpochPasses(fences.epoch, Taken(p, e).value.epoch, Taken(p, e).value.body)
    then Some(Taken(p, e).value.body) else None
  }

  /** The fences read off the events of a run: streams opened and reset, reservations, the first frame's
      generation, ATTACH_STATE attached, and resyncs from the epoch accepted then. */
  function FencesRead(fixedSubscription: bool, events: seq<Event>): Fences
    decreases |events|
  {
    if events == [] then Fences(None, None)
    else
      var front, e := events[..|events| - 1], events[|events| - 1];
      var p, fences := Run(Initial(fixedSubscription), front), FencesRead(fixedSubscription, front);
      if Resets(p, e) || Opens(p, e) then Fences(None, None)
      else if Addressed(p, e) && !Taken(p, e).value.body.Undecodable?
              && (fences.generation.Some? ==> fences.generation.value == Taken(p, e).value.generation) then
        Fences(Some(Taken(p, e).value.generation),
               if Passing(p, e, fences) == Some(AttachStateFrame(Attached)) then Some(0)
               else if Passing(p, e, fences).Some? && Passing(p, e, fences).value.RouteResync?
               then Some(Passing(p, e, fences).value.toEpoch)
               else fences.epoch)
      else if Reserves(p, e) && e.reserved.Some? then Fences(e.reserved, fences.epoch)
      else fences
  }

  lemma {:induction false} FencesReadExact(fixedSubscription: bool, events: seq<Event>)
    ensures var route := Run(Initial(fixedSubscription), events).route;
      FencesRead(fixedSubscription, events) == Fences(route.routeGeneration, route.acceptedEpoch)
    decreases |events|
  {
    hide PlaneOk, Step, Resets, Opens, Reserves, Taken, EpochPasses;
    if events != [] {
      var front := events[..|events| - 1];
      FencesReadExact(fixedSubscription, front);
      RunOk(fixedSubscription, front);
      RouteExact(Run(Initial(fixedSubscription), front), events[|events| - 1]);
    }
  }

  /** The payloads a run admits: OUTPUT of the present attachment that passes the fences read so far and, while
      the screen is restored, fits its buffer. */
  function AdmittedOver(fixedSubscription: bool, events: seq<Event>): seq<Item>
    decreases |events|
  {
    if events == [] then []
    else
      var front, e := events[..|events| - 1], events[|events| - 1];
      var p := Run(Initial(fixedSubscription), front);
      var passing := Passing(p, e, FencesRead(fixedSubscription, front));
      AdmittedOver(fixedSubscription, front)
      + if passing.Some? && passing.value.Output? && !Overflowing(p, passing.value.payload)
        then [Item(p.route.Queue(e.queue).items[0].serial, passing.value.payload)] else []
  }

  /** Over every run, the segments hold exactly the payloads that passed the fences of their time. */
  lemma {:induction false} AdmissionOverRuns(fixedSubscription: bool, events: seq<Event>)
    ensures Admitted(Run(Initial(fixedSubscription), events).route.segments) == AdmittedOver(fixedSubscription, events)
    decreases |events|
  {
    hide PlaneOk, Step, Admitted, Overflowing, FinishedAfter;
    if events != [] {
      var front := events[..|events| - 1];
      AdmissionOverRuns(fixedSubscription, front);
      RunOk(fixedSubscription, front);
      FencesReadExact(fixedSubscription, front);
      AdmissionExact(Run(Initial(fixedSubscription), front), events[|events| - 1]);
    } else {
      NothingAdmittedYet(fixedSubscription);
    }
  }

  lemma NothingAdmittedYet(fixedSubscription: bool)
    ensures Admitted(Initial(fixedSubscription).route.segments) == []
  {
  }

  /** A resync that passes starts the next segment and the next hydration under its target epoch, at once
      unfinished; what the replaced one buffered is delivered by no later FINISH. */
  lemma ResyncStartsAfresh(p: Plane, e: Event)
    requires PlaneOk(p) && Handled(p, e).Some? && Handled(p, e).value.RouteResync?
    ensures var q := Step(p, e);
      && q.route.acceptedEpoch == Some(Handled(p, e).value.toEpoch) && q.route.acceptedEpoch != p.route.acceptedEpoch
      && q.route.segments == p.route.segments + [Segment(p.life.generation, [], false)]
      && q.route.hydration == Some(Fresh(p).(armed := true)) && q.route.delivered == p.route.delivered
      && q.life == p.life
  {
    hide PlaneOk, Pump;
    DispatchParts(p, e);
    RouteExact(p, e);
  }
}
