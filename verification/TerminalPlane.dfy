/** The terminal data plane as a state machine. One event is one atomic callback or promise
    continuation; `Step` is what it does. The environment chooses the order of the events freely:
    frames, send completions, reader results, timeouts and lifecycle events may come in any order,
    late, or for an attachment that is gone. */
module TerminalPlane {
  import opened Wrappers
  import opened TerminalInput

  const MAX_PENDING_TERMINAL_ITEMS: nat := 256
  const MAX_PENDING_TERMINAL_BYTES: nat := 8388608

  // ---------------------------------------------------------------------------
  // Attachment lifecycle.
  // ---------------------------------------------------------------------------

  /** A subscription id with the attachment generation that used it. */
  datatype Held = Held(subscription: nat, generation: nat)

  datatype Abandoned = Abandoned(held: Held, attachSent: bool)

  /** The open stream of one attachment, the id it was opened under, and whether its Attach left. */
  datatype Stream = Stream(generation: nat, subscription: nat, attachSent: bool)

  /** The pending attach promise: before the stream is opened, before it is ready, or settled and
      not yet cleared. */
  datatype AttachPhase = Acquiring | Opening | AttachSettled

  datatype AttachTask = AttachTask(generation: nat, phase: AttachPhase)

  /** `openings`, `detaches` and `reattaches` are logs; `minted` numbers the subscription ids made so
      far and `recoveryEpoch` counts transport recoveries. Each entry of `reattaches` is the epoch of
      one automatic snapshot re-attach. */
  datatype Life = Life(
    listeners: set<nat>,
    detached: bool,
    transportLost: bool,
    generation: nat,
    fixedSubscription: bool,
    subscription: nat,
    minted: nat,
    stream: Option<Stream>,
    attach: Option<AttachTask>,
    snapshotRecoveries: nat,
    detachSentFor: Option<Held>,
    lastAbandoned: Option<Abandoned>,
    continuations: nat,
    recoveryEpoch: nat,
    openings: seq<Held>,
    detaches: seq<Held>,
    reattaches: seq<nat>)

  // ---------------------------------------------------------------------------
  // Route: fences, hydration, delivery.
  // ---------------------------------------------------------------------------

  datatype AttachState = Attached | Attaching | AttachFailed | RouteDetached

  datatype Body =
    | Undecodable
    | Output(payload: Bytes)
    | SnapshotReady(page: Bytes)
    | SnapshotHistory(page: Bytes)
    | SnapshotFinish
    | ProcessExit(code: int)
    | Modes
    | AttachStateFrame(state: AttachState)
    | InputResult(operationId: nat, name: OutcomeName, accepted: Option<nat>, written: Option<nat>)
    | HistoryUnavailable
    | RouteResync(fromEpoch: nat, toEpoch: nat)

  datatype StreamEvent =
    | Frame(route: nat, generation: nat, epoch: nat, body: Body)
    | Closed(subscription: nat, adapterClosed: bool)

  /** A stream event with the attachment generation its callback was created for. `serial` is its
      position in the arrival log. */
  datatype Arrival = Arrival(serial: nat, tag: nat, event: StreamEvent)

  /** A snapshot frame being installed: before its reader is called, or while the reader decodes. */
  datatype Install = Install(hydration: nat, generation: nat, ready: bool, reading: bool)

  /** One event queue: the arrivals not yet dispatched and the install that blocks them. */
  datatype EventQueue = EventQueue(items: seq<Arrival>, install: Option<Install>)

  const IDLE_QUEUE := EventQueue([], None)

  /** One OUTPUT payload and the arrival that carried it. */
  datatype Item = Item(serial: nat, data: Bytes)

  /** `id` stands for the identity of the hydration object. */
  datatype Hydration = Hydration(
    id: nat,
    generation: nat,
    buffered: seq<Item>,
    bufferedBytes: nat,
    pendingExit: Option<int>,
    readyReceived: bool,
    decoderFinished: bool,
    historyIncomplete: bool,
    completed: bool,
    armed: bool,
    hasReader: bool)

  /** What one attach or resync admitted, and whether its FINISH completed. */
  datatype Segment = Segment(generation: nat, admitted: seq<Item>, finished: bool)

  function QueueOf(queues: map<nat, EventQueue>, q: nat): EventQueue { if q in queues then queues[q] else IDLE_QUEUE }

  /** `queueId` names the current event queue; a reset replaces the queue, its old work runs on.
      `arrivals`, `segments`, `delivered` and `exits` are logs. */
  datatype Route = Route(
    attached: bool,
    routeGeneration: Option<nat>,
    acceptedEpoch: Option<nat>,
    hydration: Option<Hydration>,
    nextHydration: nat,
    readerBound: bool,
    queueId: nat,
    queues: map<nat, EventQueue>,
    arrivals: seq<StreamEvent>,
    segments: seq<Segment>,
    delivered: seq<Item>,
    exits: seq<int>)
  {
    function Queue(q: nat): EventQueue { QueueOf(queues, q) }
  }

  datatype Plane = Plane(life: Life, route: Route, input: Input)

  function Initial(fixedSubscription: bool): Plane {
    Plane(Life({}, false, false, 0, fixedSubscription, 0, 1, None, None, 0, None, None, 0, 0, [], [], []),
          Route(false, None, None, None, 0, false, 0, map[], [], [], [], []),
          EMPTY_INPUT)
  }

  predicate IsCurrent(life: Life, g: nat) { !life.detached && life.generation == g }

  predicate ScreenHydrated(life: Life, route: Route) {
    route.hydration.Some? && route.hydration.value.generation == life.generation && route.hydration.value.completed
  }

  function GateOf(life: Life, route: Route): Gate {
    Gate(life.generation, !life.detached,
         if life.stream.Some? then Some(life.stream.value.generation) else None,
         route.attached, ScreenHydrated(life, route))
  }

  function PumpPlane(p: Plane): Plane {
    p.(input := Pump(p.input, GateOf(p.life, p.route)))
  }

  // ---------------------------------------------------------------------------
  // Closing and opening.
  // ---------------------------------------------------------------------------

  /** Drops the stream handle, hydration and every input operation of this generation. */
  function Reset(p: Plane): Plane {
    Plane(p.life.(stream := None, attach := None, generation := p.life.generation + 1),
          p.route.(attached := false, routeGeneration := None, acceptedEpoch := None, hydration := None,
                   queueId := p.route.queueId + 1),
          Abandon(p.input, p.life.generation))
  }

  predicate DetachSent(life: Life, held: Held) {
    && life.detachSentFor.Some?
    && (if life.detached && life.detachSentFor.value.subscription == held.subscription then true
        else life.detachSentFor.value == held)
  }

  function SendDetachOnce(life: Life, held: Held): Life {
    if DetachSent(life, held) then life
    else life.(detachSentFor := Some(held), detaches := life.detaches + [held])
  }

  function HeldNow(life: Life, route: Route): Held {
    Held(life.subscription, if route.hydration.Some? then route.hydration.value.generation else life.generation)
  }

  /** Closes the stream, owing the hub one Detach for it. Also what a failed route does. */
  function CloseStream(p: Plane): Plane {
    Reset(if p.life.stream.Some? then p.(life := SendDetachOnce(p.life, HeldNow(p.life, p.route))) else p)
  }

  function EnsureAttached(p: Plane): Plane {
    if (p.life.detached && p.life.listeners == {}) || p.life.attach.Some? || p.life.stream.Some? then p
    else if p.life.listeners == {} then p.(life := p.life.(attach := Some(AttachTask(p.life.generation, AttachSettled))))
    else
      var g := p.life.generation + 1;
      p.(life := p.life.(generation := g, attach := Some(AttachTask(g, Acquiring))),
         route := p.route.(attached := false),
         input := p.input.(nextOperationId := 1))
  }

  /** The hydration of generation g, made if there is none. A new one starts a new segment. */
  function EnsureHydration(route: Route, g: nat): Route {
    if route.hydration.Some? && route.hydration.value.generation == g then route
    else route.(hydration := Some(Hydration(route.nextHydration, g, [], 0, None, false, false, false, false, false, route.readerBound)),
                nextHydration := route.nextHydration + 1,
                segments := route.segments + [Segment(g, [], false)])
  }

  function Arm(route: Route): Route {
    if route.hydration.Some? && !route.hydration.value.completed
    then route.(hydration := Some(route.hydration.value.(armed := true))) else route
  }

  function AttachResume(p: Plane, g: nat): Plane {
    if p.life.attach != Some(AttachTask(g, Acquiring)) then p
    else if !IsCurrent(p.life, g) || p.life.listeners == {} then p.(life := p.life.(attach := Some(AttachTask(g, AttachSettled))))
    else
      p.(life := p.life.(stream := Some(Stream(g, p.life.subscription, false)),
                         attach := Some(AttachTask(g, Opening)),
                         detachSentFor := None,
                         openings := p.life.openings + [Held(p.life.subscription, g)]),
         route := EnsureHydration(p.route, g).(routeGeneration := None, acceptedEpoch := None))
  }

  /** The stream is ready; the reservation fixes the route generation when it carries one. */
  function AttachReady(p: Plane, g: nat, reserved: Option<nat>): Plane {
    if p.life.attach != Some(AttachTask(g, Opening)) then p else
      var q := p.(life := p.life.(attach := Some(AttachTask(g, AttachSettled))));
      if !IsCurrent(p.life, g) then q
      else q.(route := Arm(p.route.(routeGeneration := if reserved.Some? then reserved else p.route.routeGeneration)))
  }

  function AttachRejected(p: Plane, g: nat): Plane {
    if p.life.attach == Some(AttachTask(g, Opening))
    then p.(life := p.life.(attach := Some(AttachTask(g, AttachSettled)))) else p
  }

  function AttachCleared(p: Plane, g: nat): Plane {
    if p.life.attach == Some(AttachTask(g, AttachSettled)) then p.(life := p.life.(attach := None)) else p
  }

  function MarkAttachSent(p: Plane, g: nat): Plane {
    if p.life.stream.Some? && p.life.stream.value.generation == g
    then p.(life := p.life.(stream := Some(p.life.stream.value.(attachSent := true)))) else p
  }

  // ---------------------------------------------------------------------------
  // Loss, recovery, detach.
  // ---------------------------------------------------------------------------

  function TransportLost(p: Plane): Plane {
    if p.life.detached || p.life.transportLost then p
    else
      var sent := p.route.attached || (p.life.stream.Some? && p.life.stream.value.attachSent);
      Reset(p.(life := p.life.(transportLost := true,
                               lastAbandoned := Some(Abandoned(HeldNow(p.life, p.route), sent)))))
  }

  function MintSubscription(life: Life): Life {
    life.(subscription := life.minted, minted := life.minted + 1)
  }

  function TransportRecovered(p: Plane): Plane {
    if p.life.detached || !p.life.transportLost || p.life.listeners == {} then p
    else
      var owed := p.life.lastAbandoned;
      var life := p.life.(transportLost := false, snapshotRecoveries := 0, lastAbandoned := None,
                          recoveryEpoch := p.life.recoveryEpoch + 1);
      if life.fixedSubscription then EnsureAttached(p.(life := life))
      else if owed.Some? && owed.value.attachSent then
        var sent := SendDetachOnce(MintSubscription(life), owed.value.held);
        p.(life := sent.(continuations := sent.continuations + 1))
      else EnsureAttached(p.(life := MintSubscription(life)))
  }

  /** The stale Detach request of a recovery settled; the recovery goes on to attach. */
  function RecoveryContinues(p: Plane): Plane {
    if p.life.continuations == 0 then p
    else
      var q := p.(life := p.life.(continuations := p.life.continuations - 1));
      if q.life.detached || q.life.listeners == {} then q else EnsureAttached(q)
  }

  function DetachPlane(p: Plane): Plane {
    if p.life.detached then p
    else
      var held := HeldNow(p.life, p.route);
      var q := Reset(p.(life := p.life.(detached := true, transportLost := false)));
      q.(life := SendDetachOnce(q.life.(listeners := {}), held))
  }

  /** One fresh attach for a lost snapshot; a second loss before the next recovery fails the route. */
  function RecoverRoute(p: Plane, hydration: nat): Plane {
    if p.route.hydration.None? || p.route.hydration.value.id != hydration then p
    else if p.life.snapshotRecoveries >= 1 || p.life.fixedSubscription then CloseStream(p)
    else
      var q := CloseStream(p.(life := p.life.(snapshotRecoveries := p.life.snapshotRecoveries + 1,
                                              reattaches := p.life.reattaches + [p.life.recoveryEpoch])));
      EnsureAttached(q.(life := MintSubscription(q.life)))
  }

  function HydrationTimeout(p: Plane, hydration: nat): Plane {
    if p.route.hydration.Some? && p.route.hydration.value.id == hydration
       && p.route.hydration.value.armed && !p.route.hydration.value.completed
    then RecoverRoute(p.(route := p.route.(hydration := Some(p.route.hydration.value.(armed := false)))), hydration)
    else p
  }

  // ---------------------------------------------------------------------------
  // Listeners and user input.
  // ---------------------------------------------------------------------------

  function Subscribe(p: Plane, listener: nat): Plane {
    var q := p.(life := p.life.(listeners := p.life.listeners + {listener}));
    if q.life.detached then q else EnsureAttached(q)
  }

  function Unsubscribe(p: Plane, listener: nat): Plane {
    var q := p.(life := p.life.(listeners := p.life.listeners - {listener}));
    if q.life.listeners == {} && !q.life.detached then CloseStream(q) else q
  }

  function SendInput(p: Plane, op: Operation, requestedBytes: nat): Plane {
    if p.life.detached || op.Paste? || op.Resize? then p
    else
      var q := p.(input := AdmitInput(p.input, op, requestedBytes));
      if Admits(p.input, op) then PumpPlane(EnsureAttached(q)) else q
  }

  function ResizeTo(p: Plane, geometry: Geometry): Plane {
    if p.life.detached then p
    else PumpPlane(EnsureAttached(p.(input := p.input.(desired := Some(geometry)))))
  }

  function WritePaste(p: Plane, units: nat, data: Bytes): Plane {
    var begun := BeginPaste(p.input);
    var refusal := PasteRefusal(!p.life.detached, units, data);
    if refusal.Some? then p.(input := Refuse(begun, refusal.value))
    else
      var q := p.(input := AdmitPaste(begun, data));
      if Admits(begun, Paste(data, false)) then PumpPlane(EnsureAttached(q)) else q
  }

  function Confirm(p: Plane, consent: Consent, now: nat): Plane {
    if !ConsentMatches(p.input, consent) then p
    else if !ConsentUsable(GateOf(p.life, p.route), consent, now) then p.(input := ReleaseConsent(p.input))
    else
      var q := p.(input := AdmitConfirmed(p.input));
      if Admits(ReleaseConsent(p.input), Paste(p.input.pending.value.data, true)) then PumpPlane(EnsureAttached(q)) else q
  }

  function CancelPaste(p: Plane, consent: Consent): Plane {
    p.(input := Cancel(p.input, consent))
  }

  // ---------------------------------------------------------------------------
  // Route frames.
  // ---------------------------------------------------------------------------

  /** Every listed generation has opened a stream, so it can deliver. */
  predicate Delivers(life: Life, tag: nat) {
    exists k :: 0 <= k < |life.openings| && life.openings[k].generation == tag
  }

  function SetQueue(route: Route, q: nat, queue: EventQueue): Route {
    route.(queues := route.queues[q := queue])
  }

  /** A stream callback: the event joins the queue current at that moment. */
  function Arrive(p: Plane, tag: nat, event: StreamEvent): Plane {
    if !Delivers(p.life, tag) then p
    else
      var route := p.route;
      var queue := route.Queue(route.queueId);
      var arrival := Arrival(|route.arrivals|, tag, event);
      p.(route := SetQueue(route.(arrivals := route.arrivals + [event]), route.queueId,
                           queue.(items := queue.items + [arrival])))
  }

  predicate AdmitsGeneration(route: Route, generation: nat) {
    route.routeGeneration.None? || route.routeGeneration.value == generation
  }

  predicate AdmitsEpoch(route: Route, epoch: nat, body: Body) {
    match body
    case AttachStateFrame(_) => true
    case InputResult(_, _, _, _) => true
    case RouteResync(from, to) =>
      route.acceptedEpoch == Some(from) && to != from && to == epoch
    case _ => route.acceptedEpoch == Some(epoch)
  }

  predicate Overflows(hydration: Hydration, data: Bytes) {
    || hydration.bufferedBytes + |data| > MAX_PENDING_TERMINAL_BYTES
    || |hydration.buffered| + 1 > MAX_PENDING_TERMINAL_ITEMS
  }

  function AdmitToLast(segments: seq<Segment>, item: Item): seq<Segment> {
    if segments == [] then []
    else
      var last := segments[|segments| - 1];
      segments[..|segments| - 1] + [last.(admitted := last.admitted + [item])]
  }

  /** Appends one admitted payload to the running segment. */
  function AdmitItem(route: Route, item: Item): Route {
    route.(segments := AdmitToLast(route.segments, item))
  }

  function ReceiveOutput(p: Plane, tag: nat, item: Item): Plane {
    var route := p.route;
    if route.hydration.Some? && route.hydration.value.generation == tag && !route.hydration.value.completed then
      var h := route.hydration.value;
      if Overflows(h, item.data) then RecoverRoute(p, h.id)
      else p.(route := AdmitItem(route, item).(hydration := Some(h.(buffered := h.buffered + [item], bufferedBytes := h.bufferedBytes + |item.data|))))
    else p.(route := AdmitItem(route, item).(delivered := route.delivered + [item]))
  }

  function ReceiveExit(p: Plane, tag: nat, code: int): Plane {
    var route := p.route;
    if route.hydration.Some? && route.hydration.value.generation == tag && !route.hydration.value.completed
    then p.(route := route.(hydration := Some(route.hydration.value.(pendingExit := Some(code)))))
    else p.(route := route.(exits := route.exits + [code]))
  }

  function FinishLast(segments: seq<Segment>): seq<Segment> {
    if segments == [] then []
    else segments[..|segments| - 1] + [segments[|segments| - 1].(finished := true)]
  }

  /** FINISH: the buffered payloads are delivered in order, then a held process exit. */
  function CompleteHydration(p: Plane): Plane
    requires p.route.hydration.Some?
  {
    var route := p.route;
    var h := route.hydration.value;
    PumpPlane(p.(route := route.(
      hydration := Some(h.(completed := true, armed := false, buffered := [], bufferedBytes := 0)),
      delivered := route.delivered + h.buffered,
      segments := FinishLast(route.segments),
      exits := if h.pendingExit.Some? then route.exits + [h.pendingExit.value] else route.exits)))
  }

  function ReceiveFinish(p: Plane, tag: nat): Plane {
    var route := EnsureHydration(p.route, tag);
    var h := route.hydration.value;
    if h.completed then p.(route := route)
    else if !h.readyReceived then CloseStream(p.(route := route))
    else CompleteHydration(p.(route := route.(hydration := Some(h.(
           historyIncomplete := h.historyIncomplete || !h.decoderFinished)))))
  }

  function ReceiveHistoryUnavailable(p: Plane, tag: nat): Plane {
    var route := EnsureHydration(p.route, tag);
    var h := route.hydration.value;
    if !h.readyReceived then CloseStream(p.(route := route))
    else p.(route := route.(hydration := Some(h.(historyIncomplete := true))))
  }

  function ReceiveResync(p: Plane, tag: nat, toEpoch: nat): Plane {
    p.(route := Arm(EnsureHydration(p.route.(acceptedEpoch := Some(toEpoch), hydration := None), tag)),
       input := ReleaseConsent(p.input))
  }

  function ReceiveAttachState(p: Plane, tag: nat, state: AttachState): Plane {
    match state
    case Attached => PumpPlane(p.(route := p.route.(attached := true, acceptedEpoch := Some(0))))
    case Attaching => p
    case AttachFailed =>
      if p.route.hydration.Some? && p.route.hydration.value.generation == tag && !p.route.hydration.value.readyReceived
      then RecoverRoute(p, p.route.hydration.value.id) else CloseStream(p)
    case RouteDetached => CloseStream(p)
  }

  /** A snapshot frame blocks its queue until its install is over. */
  function BeginInstall(p: Plane, q: nat, tag: nat, ready: bool): Plane {
    var route := EnsureHydration(p.route, tag);
    p.(route := SetQueue(route, q, route.Queue(q).(install := Some(Install(route.hydration.value.id, tag, ready, false)))))
  }

  /** A decoded frame that passed both fences. */
  function HandleBody(p: Plane, q: nat, serial: nat, tag: nat, body: Body, now: nat): Plane {
    match body
    case Undecodable => p
    case Output(payload) => ReceiveOutput(p, tag, Item(serial, payload))
    case SnapshotReady(_) => BeginInstall(p, q, tag, true)
    case SnapshotHistory(_) => BeginInstall(p, q, tag, false)
    case SnapshotFinish => ReceiveFinish(p, tag)
    case ProcessExit(code) => ReceiveExit(p, tag, code)
    case Modes => p
    case AttachStateFrame(state) => ReceiveAttachState(p, tag, state)
    case InputResult(id, name, accepted, written) =>
      p.(input := SettleResult(p.input, GateOf(p.life, p.route), id, name, accepted, written, now))
    case HistoryUnavailable => ReceiveHistoryUnavailable(p, tag)
    case RouteResync(_, to) => ReceiveResync(p, tag, to)
  }

  function ReceiveFrame(p: Plane, q: nat, serial: nat, tag: nat, frame: StreamEvent, now: nat): Plane
    requires frame.Frame?
  {
    if frame.body.Undecodable? then CloseStream(p)
    else if !AdmitsGeneration(p.route, frame.generation) then p
    else
      var fenced := p.(route := p.route.(routeGeneration := Some(frame.generation)));
      if !AdmitsEpoch(p.route, frame.epoch, frame.body) then fenced
      else HandleBody(fenced, q, serial, tag, frame.body, now)
  }

  function HandleArrival(p: Plane, q: nat, a: Arrival, now: nat): Plane {
    if !IsCurrent(p.life, a.tag) then p
    else match a.event
      case Closed(subscription, adapterClosed) =>
        if subscription != p.life.subscription then p
        else if adapterClosed then CloseStream(p) else Reset(p)
      case Frame(route, _, _, _) =>
        if route != p.life.subscription then p else ReceiveFrame(p, q, a.serial, a.tag, a.event, now)
  }

  /** The next arrival of queue q is taken unless an install blocks the queue. */
  function Dispatch(p: Plane, q: nat, now: nat): Plane {
    var queue := p.route.Queue(q);
    if queue.install.Some? || queue.items == [] then p
    else HandleArrival(p.(route := SetQueue(p.route, q, queue.(items := queue.items[1..]))), q, queue.items[0], now)
  }

  // ---------------------------------------------------------------------------
  // Snapshot installation.
  // ---------------------------------------------------------------------------

  function EndInstall(p: Plane, q: nat): Plane {
    p.(route := SetQueue(p.route, q, p.route.Queue(q).(install := None)))
  }

  /** The install still belongs to the hydration of the current attachment. */
  predicate InstallCurrent(p: Plane, install: Install) {
    && IsCurrent(p.life, install.generation)
    && p.route.hydration.Some? && p.route.hydration.value.id == install.hydration
  }

  function StartInstall(p: Plane, q: nat): Plane {
    var queue := p.route.Queue(q);
    if queue.install.None? || queue.install.value.reading then p else
      var install := queue.install.value;
      if !InstallCurrent(p, install) then EndInstall(p, q)
      else
        var h := p.route.hydration.value;
        if h.completed || install.ready == h.readyReceived then CloseStream(EndInstall(p, q))
        else if h.historyIncomplete || h.decoderFinished then EndInstall(p, q)
        else if !h.hasReader then CloseStream(EndInstall(p, q))
        else p.(route := SetQueue(p.route, q, queue.(install := Some(install.(reading := true)))))
  }

  datatype Progress = ReaderReady | ReaderPage | ReaderFinish | ReaderUnknown

  function ReaderDone(p: Plane, q: nat, progress: Progress): Plane {
    var queue := p.route.Queue(q);
    if queue.install.None? || !queue.install.value.reading then p else
      var install := queue.install.value;
      var ended := EndInstall(p, q);
      if !InstallCurrent(p, install) then ended
      else
        var h := p.route.hydration.value;
        match progress
        case ReaderReady =>
          if !install.ready then CloseStream(ended)
          else ended.(route := Arm(ended.route.(hydration := Some(h.(readyReceived := true)))))
        case ReaderPage => if install.ready then CloseStream(ended) else ended.(route := Arm(ended.route))
        case ReaderFinish =>
          if install.ready then CloseStream(ended)
          else ended.(route := Arm(ended.route.(hydration := Some(h.(decoderFinished := true)))))
        case ReaderUnknown => CloseStream(ended)
  }

  function ReaderFailed(p: Plane, q: nat): Plane {
    var queue := p.route.Queue(q);
    if queue.install.None? || !queue.install.value.reading then p else
      var install := queue.install.value;
      var ended := EndInstall(p, q);
      if !InstallCurrent(p, install) then ended else RecoverRoute(ended, install.hydration)
  }

  // ---------------------------------------------------------------------------
  // Events and runs.
  // ---------------------------------------------------------------------------

  datatype Event =
    | EvSubscribe(listener: nat)
    | EvUnsubscribe(listener: nat)
    | EvBindReader
    | EvSendInput(op: Operation, requestedBytes: nat)
    | EvResize(geometry: Geometry)
    | EvPaste(units: nat, data: Bytes)
    | EvConfirm(consent: Consent, now: nat)
    | EvCancel(consent: Consent)
    | EvConsentExpires(consent: Consent)
    | EvChainRun(generation: nat)
    | EvSendDone(generation: nat)
    | EvSendFail(generation: nat)
    | EvAbortDone(generation: nat)
    | EvChainCatch(generation: nat)
    | EvArrive(tag: nat, event: StreamEvent)
    | EvDispatch(queue: nat, now: nat)
    | EvStartInstall(queue: nat)
    | EvReaderDone(queue: nat, progress: Progress)
    | EvReaderFailed(queue: nat)
    | EvHydrationTimeout(hydration: nat)
    | EvAttachResume(generation: nat)
    | EvAttachSent(generation: nat)
    | EvAttachReady(generation: nat, reserved: Option<nat>)
    | EvAttachRejected(generation: nat)
    | EvAttachCleared(generation: nat)
    | EvTransportLost
    | EvRouteChannelClosed(subscription: nat)
    | EvTransportRecovered
    | EvRecoveryContinues
    | EvDetach
  {
    predicate User() {
      || EvSubscribe? || EvUnsubscribe? || EvBindReader? || EvSendInput? || EvResize? || EvPaste?
      || EvConfirm? || EvCancel? || EvConsentExpires?
    }

    predicate Chain() { EvChainRun? || EvSendDone? || EvSendFail? || EvAbortDone? || EvChainCatch? }

    predicate Delivery() {
      EvArrive? || EvDispatch? || EvStartInstall? || EvReaderDone? || EvReaderFailed? || EvHydrationTimeout?
    }
  }

  /** A user's call, or the expiry of a consent. */
  function OnUser(p: Plane, e: Event): Plane {
    match e
    case EvSubscribe(l) => Subscribe(p, l)
    case EvUnsubscribe(l) => Unsubscribe(p, l)
    case EvBindReader => p.(route := p.route.(readerBound := true))
    case EvSendInput(op, n) => SendInput(p, op, n)
    case EvResize(geometry) => ResizeTo(p, geometry)
    case EvPaste(units, data) => WritePaste(p, units, data)
    case EvConfirm(consent, now) => Confirm(p, consent, now)
    case EvCancel(consent) => CancelPaste(p, consent)
    case EvConsentExpires(consent) => CancelPaste(p, consent)
    case _ => p
  }

  /** A continuation of a send chain. */
  function OnChain(p: Plane, e: Event): Plane {
    var gate := GateOf(p.life, p.route);
    match e
    case EvChainRun(g) => p.(input := ChainRun(p.input, gate, g))
    case EvSendDone(g) => p.(input := TerminalInput.SendDone(p.input, g))
    case EvSendFail(g) => p.(input := TerminalInput.SendFail(p.input, gate, g))
    case EvAbortDone(g) => p.(input := AbortDone(p.input, g))
    case EvChainCatch(g) => p.(input := ChainCatch(p.input, gate, g))
    case _ => p
  }

  /** An arrival, its dispatch, and what the snapshot reader reports. */
  function OnDelivery(p: Plane, e: Event): Plane {
    match e
    case EvArrive(tag, event) => Arrive(p, tag, event)
    case EvDispatch(q, now) => Dispatch(p, q, now)
    case EvStartInstall(q) => StartInstall(p, q)
    case EvReaderDone(q, progress) => ReaderDone(p, q, progress)
    case EvReaderFailed(q) => ReaderFailed(p, q)
    case EvHydrationTimeout(h) => HydrationTimeout(p, h)
    case _ => p
  }

  /** Attaching, loss, recovery and detach. */
  function OnLifecycle(p: Plane, e: Event): Plane {
    match e
    case EvAttachResume(g) => AttachResume(p, g)
    case EvAttachSent(g) => MarkAttachSent(p, g)
    case EvAttachReady(g, reserved) => AttachReady(p, g, reserved)
    case EvAttachRejected(g) => AttachRejected(p, g)
    case EvAttachCleared(g) => AttachCleared(p, g)
    case EvTransportLost => TransportLost(p)
    case EvRouteChannelClosed(subscription) => if subscription == p.life.subscription then TransportLost(p) else p
    case EvTransportRecovered => TransportRecovered(p)
    case EvRecoveryContinues => RecoveryContinues(p)
    case EvDetach => DetachPlane(p)
    case _ => p
  }

  function Step(p: Plane, e: Event): Plane {
    if e.User() then OnUser(p, e)
    else if e.Chain() then OnChain(p, e)
    else if e.Delivery() then OnDelivery(p, e)
    else OnLifecycle(p, e)
  }

  /** Every state an arbitrary sequence of events reaches. */
  function Run(p: Plane, events: seq<Event>): Plane
    decreases |events|
  {
    if events == [] then p else Step(Run(p, events[..|events| - 1]), events[|events| - 1])
  }
}
