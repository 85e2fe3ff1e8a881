/** The invariant of the terminal data plane, kept by every event, and so by every run. */
module TerminalPlaneProofs {
  import opened Wrappers
  import opened TerminalInput
  import opened TerminalInputProofs
  import opened TerminalPlane

  // ---------------------------------------------------------------------------
  // The parts of the invariant.
  // ---------------------------------------------------------------------------

  /** Stream, hydration, fences and pending attach belong to the current attachment. */
  ghost predicate LinkOk(life: Life, route: Route) {
    && (life.detached ==> life.attach.None? && life.stream.None?)
    && (route.attached <==> route.acceptedEpoch.Some?)
    && life.subscription < life.minted
    && match life.stream
       case None =>
         && route.hydration.None? && !route.attached
         && (life.attach.Some? ==>
               && life.attach.value.phase != Opening
               && (life.attach.value.phase == Acquiring ==> life.attach.value.generation == life.generation))
       case Some(stream) =>
         && stream.generation == life.generation && life.listeners != {}
         && route.hydration.Some? && route.hydration.value.generation == life.generation
         && route.hydration.value.id < route.nextHydration
         && (life.attach.Some? ==>
               && life.attach.value.phase != Acquiring
               && (life.attach.value.phase == Opening ==> life.attach.value.generation == life.generation))
  }

  /** Each generation opens at most one stream; the current one has opened its stream iff it holds it. */
  ghost predicate OpeningsOk(openings: seq<Held>, generation: nat, open: bool) {
    && (forall j, k :: 0 <= j < k < |openings| ==> openings[j].generation < openings[k].generation)
    && (forall k :: 0 <= k < |openings| ==> openings[k].generation <= generation)
    && (open <==> openings != [] && openings[|openings| - 1].generation == generation)
  }

  /** Work tagged with generation g can be work of the current attachment only while it is open. */
  ghost predicate Admissible(g: nat, generation: nat, open: bool, currentQueue: bool) {
    g <= generation && (g == generation ==> open && currentQueue)
  }

  ghost predicate QueueOk(queue: EventQueue, arrivals: seq<StreamEvent>, generation: nat, open: bool, currentQueue: bool) {
    && (forall k :: 0 <= k < |queue.items| ==>
          && Admissible(queue.items[k].tag, generation, open, currentQueue)
          && queue.items[k].serial < |arrivals| && arrivals[queue.items[k].serial] == queue.items[k].event)
    && (forall j, k :: 0 <= j < k < |queue.items| ==> queue.items[j].serial < queue.items[k].serial)
    && (queue.install.Some? ==> Admissible(queue.install.value.generation, generation, open, currentQueue))
  }

  ghost predicate QueuesOk(queues: map<nat, EventQueue>, queueId: nat, arrivals: seq<StreamEvent>, generation: nat, open: bool) {
    && (forall q: nat :: QueueOk(QueueOf(queues, q), arrivals, generation, open, q == queueId))
    && (forall q: nat :: q > queueId ==> QueueOf(queues, q) == IDLE_QUEUE)
  }

  /** Every payload any segment admitted, in order. */
  ghost function Admitted(segments: seq<Segment>): seq<Item> {
    if segments == [] then []
    else Admitted(segments[..|segments| - 1]) + segments[|segments| - 1].admitted
  }

  /** What the listeners must have received: the segments that finished, whole, and nothing else. */
  ghost function Finished(segments: seq<Segment>): seq<Item> {
    if segments == [] then []
    else
      var last := segments[|segments| - 1];
      Finished(segments[..|segments| - 1]) + if last.finished then last.admitted else []
  }

  ghost predicate CarriedBy(item: Item, arrivals: seq<StreamEvent>) {
    && item.serial < |arrivals|
    && arrivals[item.serial].Frame?
    && arrivals[item.serial].body == Output(item.data)
  }

  /** Payloads are admitted in arrival order, each once, and before everything still queued. */
  ghost predicate SerialOk(admitted: seq<Item>, items: seq<Arrival>, arrivals: seq<StreamEvent>) {
    && (forall k :: 0 <= k < |admitted| ==> CarriedBy(admitted[k], arrivals))
    && (forall j, k :: 0 <= j < k < |admitted| ==> admitted[j].serial < admitted[k].serial)
    && (forall j, k :: 0 <= j < |admitted| && 0 <= k < |items| ==> admitted[j].serial < items[k].serial)
  }

  /** What the hydration's counter stands for. */
  function BufferedBytes(items: seq<Item>): nat {
    if items == [] then 0 else BufferedBytes(items[..|items| - 1]) + |items[|items| - 1].data|
  }

  /** The running hydration mirrors the last segment; the listeners hold exactly the finished segments. */
  ghost predicate OutputOk(segments: seq<Segment>, delivered: seq<Item>, hydration: Option<Hydration>) {
    && delivered == Finished(segments)
    && match hydration
       case None => true
       case Some(h) =>
         && segments != []
         && var last := segments[|segments| - 1];
            && last.generation == h.generation && last.finished == h.completed
            && h.bufferedBytes == BufferedBytes(h.buffered)
            && (if h.completed then h.buffered == [] && h.readyReceived else h.buffered == last.admitted)
  }

  /** Detach requests name distinct, past generations; a recovery still owes only one not yet named. */
  ghost predicate DetachOk(detaches: seq<Held>, lastAbandoned: Option<Abandoned>, generation: nat) {
    && (forall k :: 0 <= k < |detaches| ==> detaches[k].generation < generation)
    && (forall j, k :: 0 <= j < k < |detaches| ==> detaches[j].generation != detaches[k].generation)
    && match lastAbandoned
       case None => true
       case Some(a) =>
         && a.held.generation < generation
         && (forall k :: 0 <= k < |detaches| ==> detaches[k].generation != a.held.generation)
  }

  /** At most one automatic re-attach per recovery epoch. */
  ghost predicate ReattachOk(reattaches: seq<nat>, epoch: nat, recoveries: nat) {
    && (forall j, k :: 0 <= j < k < |reattaches| ==> reattaches[j] < reattaches[k])
    && (forall k :: 0 <= k < |reattaches| ==> reattaches[k] <= epoch)
    && recoveries == if reattaches != [] && reattaches[|reattaches| - 1] == epoch then 1 else 0
  }

  ghost predicate PlaneOk(p: Plane) {
    match p
    case Plane(life, route, input) =>
      && LinkOk(life, route)
      && OpeningsOk(life.openings, life.generation, life.stream.Some?)
      && QueuesOk(route.queues, route.queueId, route.arrivals, life.generation, life.stream.Some?)
      && SerialOk(Admitted(route.segments), QueueOf(route.queues, route.queueId).items, route.arrivals)
      && OutputOk(route.segments, route.delivered, route.hydration)
      && DetachOk(life.detaches, life.lastAbandoned, life.generation)
      && ReattachOk(life.reattaches, life.recoveryEpoch, life.snapshotRecoveries)
      && InputOk(input, GateOf(life, route))
  }

  // ---------------------------------------------------------------------------
  // Primitive updates.
  // ---------------------------------------------------------------------------

  lemma NoChains(gate: Gate)
    ensures ChainsOk(map[], map[], 1, gate) && SlotOk(Of(map[], gate.generation), None)
    ensures OrderOk([], 0, map[], map[], gate.generation) && FenceOk(map[], [], [], 0, gate.generation)
    ensures UnsafeOk(EMPTY_INPUT, gate)
  {
    var chains: map<nat, seq<Job>>, wires: map<nat, seq<WireFrame>> := map[], map[];
    forall g: nat ensures Of(chains, g) == [] && Of(wires, g) == [] {
    }
  }

  lemma EmptyInputOk(gate: Gate)
    ensures InputOk(EMPTY_INPUT, gate)
  {
    NothingHeld(0, gate);
    assert TicketsOk(EMPTY_INPUT) by {
      assert QueuedTickets([]) == [] && InflightTickets([]) == [] && SettledTickets([]) == [];
    }
    NoChains(gate);
  }

  lemma InitialOk(fixedSubscription: bool)
    ensures PlaneOk(Initial(fixedSubscription))
  {
    hide InputOk;
    EmptyInputOk(GateOf(Initial(fixedSubscription).life, Initial(fixedSubscription).route));
  }

  /** Only the input changed, and it kept its invariant. */
  lemma InputChangeOk(p: Plane, input: Input)
    requires PlaneOk(p) && InputOk(input, GateOf(p.life, p.route))
    ensures PlaneOk(p.(input := input))
  {
  }

  lemma PumpPlaneOk(p: Plane)
    requires PlaneOk(p)
    ensures PlaneOk(PumpPlane(p))
  {
    hide InputOk;
    PumpOk(p.input, GateOf(p.life, p.route));
    InputChangeOk(p, Pump(p.input, GateOf(p.life, p.route)));
  }

  /** The old generation's work stays fenced when the generation moves on. */
  lemma QueuesAge(queues: map<nat, EventQueue>, queueId: nat, arrivals: seq<StreamEvent>, generation: nat, open: bool,
                  queueId': nat, generation': nat)
    requires QueuesOk(queues, queueId, arrivals, generation, open)
    requires generation' > generation && queueId <= queueId' && (queueId' == queueId || queueId' == queueId + 1)
    ensures QueuesOk(queues, queueId', arrivals, generation', false)
    ensures queueId' > queueId ==> QueueOf(queues, queueId') == IDLE_QUEUE
  {
    forall q: nat ensures QueueOk(QueueOf(queues, q), arrivals, generation', false, q == queueId') {
      assert QueueOk(QueueOf(queues, q), arrivals, generation, open, q == queueId);
    }
  }

  lemma QueueDropped(admitted: seq<Item>, items: seq<Arrival>, arrivals: seq<StreamEvent>)
    requires SerialOk(admitted, items, arrivals)
    ensures SerialOk(admitted, [], arrivals)
  {
  }

  lemma HydrationDropped(segments: seq<Segment>, delivered: seq<Item>, hydration: Option<Hydration>)
    requires OutputOk(segments, delivered, hydration)
    ensures OutputOk(segments, delivered, None)
  {
  }

  lemma OpeningsAge(openings: seq<Held>, generation: nat, open: bool, generation': nat)
    requires OpeningsOk(openings, generation, open) && generation' > generation
    ensures OpeningsOk(openings, generation', false)
  {
  }

  /** What ends an attachment: its generation is over, after `life` recorded how. */
  lemma EndingOk(p: Plane, life: Life)
    requires PlaneOk(p)
    requires life == p.life.(listeners := life.listeners, detached := life.detached, transportLost := life.transportLost,
                             detachSentFor := life.detachSentFor, detaches := life.detaches,
                             lastAbandoned := life.lastAbandoned, snapshotRecoveries := life.snapshotRecoveries,
                             reattaches := life.reattaches)
    requires DetachOk(life.detaches, life.lastAbandoned, p.life.generation + 1)
    requires ReattachOk(life.reattaches, life.recoveryEpoch, life.snapshotRecoveries)
    ensures PlaneOk(Reset(p.(life := life)))
  {
    hide InputOk, QueuesOk, SerialOk, OutputOk, DetachOk, ReattachOk, OpeningsOk;
    var q := Reset(p.(life := life));
    QueuesAge(p.route.queues, p.route.queueId, p.route.arrivals, p.life.generation, p.life.stream.Some?,
              p.route.queueId + 1, p.life.generation + 1);
    QueueDropped(Admitted(p.route.segments), QueueOf(p.route.queues, p.route.queueId).items, p.route.arrivals);
    HydrationDropped(p.route.segments, p.route.delivered, p.route.hydration);
    OpeningsAge(p.life.openings, p.life.generation, p.life.stream.Some?, p.life.generation + 1);
    AbandonOk(p.input, GateOf(p.life, p.route), GateOf(q.life, q.route));
  }

  lemma DetachAges(detaches: seq<Held>, lastAbandoned: Option<Abandoned>, generation: nat)
    requires DetachOk(detaches, lastAbandoned, generation)
    ensures DetachOk(detaches, lastAbandoned, generation + 1)
  {
  }

  lemma ResetOk(p: Plane)
    requires PlaneOk(p)
    ensures PlaneOk(Reset(p))
  {
    hide InputOk, QueuesOk, SerialOk, OutputOk, DetachOk, ReattachOk, OpeningsOk, LinkOk;
    DetachAges(p.life.detaches, p.life.lastAbandoned, p.life.generation);
    EndingOk(p, p.life);
  }

  /** Only lifecycle bookkeeping changed: same generation, stream and liveness. */
  lemma LifeChangeOk(p: Plane, life: Life)
    requires PlaneOk(p)
    requires life.generation == p.life.generation && life.openings == p.life.openings
    requires life.detached == p.life.detached
    requires life.stream.Some? == p.life.stream.Some?
    requires life.stream.Some? ==> life.stream.value.generation == p.life.stream.value.generation
    requires LinkOk(life, p.route)
    requires DetachOk(life.detaches, life.lastAbandoned, life.generation)
    requires ReattachOk(life.reattaches, life.recoveryEpoch, life.snapshotRecoveries)
    ensures PlaneOk(p.(life := life))
  {
    hide InputOk, QueuesOk, SerialOk, OutputOk, DetachOk, ReattachOk, OpeningsOk, LinkOk;
    assert GateOf(life, p.route) == GateOf(p.life, p.route);
  }

  /** Only the route changed. */
  lemma RouteChangeOk(p: Plane, route: Route)
    requires PlaneOk(p)
    requires LinkOk(p.life, route)
    requires QueuesOk(route.queues, route.queueId, route.arrivals, p.life.generation, p.life.stream.Some?)
    requires SerialOk(Admitted(route.segments), QueueOf(route.queues, route.queueId).items, route.arrivals)
    requires OutputOk(route.segments, route.delivered, route.hydration)
    ensures PlaneOk(p.(route := route))
  {
    hide InputOk, QueuesOk, SerialOk, OutputOk, DetachOk, ReattachOk, OpeningsOk, LinkOk;
    GateOpensOk(p.input, GateOf(p.life, p.route), GateOf(p.life, route));
  }

  lemma DetachNamed(detaches: seq<Held>, lastAbandoned: Option<Abandoned>, generation: nat, held: Held)
    requires DetachOk(detaches, lastAbandoned, generation) && held.generation == generation
    ensures DetachOk(detaches + [held], lastAbandoned, generation + 1)
  {
  }

  lemma HeldIsCurrent(p: Plane)
    requires PlaneOk(p)
    ensures HeldNow(p.life, p.route) == Held(p.life.subscription, p.life.generation)
  {
  }

  /** Closing also when the automatic re-attach counter moves first. */
  lemma ClosingOk(p: Plane, recoveries: nat, reattaches: seq<nat>)
    requires PlaneOk(p)
    requires ReattachOk(reattaches, p.life.recoveryEpoch, recoveries)
    ensures PlaneOk(CloseStream(p.(life := p.life.(snapshotRecoveries := recoveries, reattaches := reattaches))))
  {
    hide InputOk, QueuesOk, SerialOk, OutputOk, DetachOk, ReattachOk, OpeningsOk, LinkOk;
    HeldIsCurrent(p);
    var held := HeldNow(p.life, p.route);
    var life := p.life.(snapshotRecoveries := recoveries, reattaches := reattaches);
    DetachAges(p.life.detaches, p.life.lastAbandoned, p.life.generation);
    DetachNamed(p.life.detaches, p.life.lastAbandoned, p.life.generation, held);
    EndingOk(p, if p.life.stream.Some? then SendDetachOnce(life, held) else life);
  }

  lemma CloseStreamOk(p: Plane)
    requires PlaneOk(p)
    ensures PlaneOk(CloseStream(p))
  {
    hide InputOk, QueuesOk, SerialOk, OutputOk, DetachOk, ReattachOk, OpeningsOk, LinkOk;
    assert p.life.(snapshotRecoveries := p.life.snapshotRecoveries, reattaches := p.life.reattaches) == p.life;
    ClosingOk(p, p.life.snapshotRecoveries, p.life.reattaches);
  }

  /** A fresh attach begins: the generation moves on before any stream exists. */
  lemma AttachBeginsOk(p: Plane)
    requires PlaneOk(p) && p.life.stream.None? && !p.life.detached
    ensures var g := p.life.generation + 1;
      PlaneOk(p.(life := p.life.(generation := g, attach := Some(AttachTask(g, Acquiring))),
                 route := p.route.(attached := false),
                 input := p.input.(nextOperationId := 1)))
  {
    hide InputOk, QueuesOk, SerialOk, OutputOk, DetachOk, ReattachOk, OpeningsOk;
    var g := p.life.generation + 1;
    var life := p.life.(generation := g, attach := Some(AttachTask(g, Acquiring)));
    var route := p.route.(attached := false);
    QueuesAge(p.route.queues, p.route.queueId, p.route.arrivals, p.life.generation, false, p.route.queueId, g);
    OpeningsAge(p.life.openings, p.life.generation, false, g);
    DetachAges(p.life.detaches, p.life.lastAbandoned, p.life.generation);
    AttachStartOk(p.input, GateOf(p.life, p.route), GateOf(life, route));
  }

  lemma EnsureAttachedOk(p: Plane)
    requires PlaneOk(p) && !p.life.detached
    ensures PlaneOk(EnsureAttached(p))
  {
    hide InputOk, QueuesOk, SerialOk, OutputOk, DetachOk, ReattachOk, OpeningsOk;
    if p.life.attach.None? && p.life.stream.None? {
      if p.life.listeners == {} {
        LifeChangeOk(p, p.life.(attach := Some(AttachTask(p.life.generation, AttachSettled))));
      } else {
        AttachBeginsOk(p);
      }
    }
  }

  lemma MintOk(p: Plane)
    requires PlaneOk(p)
    ensures PlaneOk(p.(life := MintSubscription(p.life)))
  {
    hide InputOk, QueuesOk, SerialOk, OutputOk, DetachOk, ReattachOk, OpeningsOk;
    LifeChangeOk(p, MintSubscription(p.life));
  }

  lemma ReattachNamed(reattaches: seq<nat>, epoch: nat)
    requires ReattachOk(reattaches, epoch, 0)
    ensures ReattachOk(reattaches + [epoch], epoch, 1)
  {
  }

  lemma RecoverRouteOk(p: Plane, hydration: nat)
    requires PlaneOk(p) && !p.life.detached
    ensures PlaneOk(RecoverRoute(p, hydration))
  {
    hide InputOk, QueuesOk, SerialOk, OutputOk, DetachOk, ReattachOk, OpeningsOk, LinkOk;
    if p.route.hydration.Some? && p.route.hydration.value.id == hydration {
      if p.life.snapshotRecoveries >= 1 || p.life.fixedSubscription {
        CloseStreamOk(p);
      } else {
        ReattachNamed(p.life.reattaches, p.life.recoveryEpoch);
        ClosingOk(p, p.life.snapshotRecoveries + 1, p.life.reattaches + [p.life.recoveryEpoch]);
        var q := CloseStream(p.(life := p.life.(snapshotRecoveries := p.life.snapshotRecoveries + 1,
                                                reattaches := p.life.reattaches + [p.life.recoveryEpoch])));
        MintOk(q);
        EnsureAttachedOk(q.(life := MintSubscription(q.life)));
      }
    }
  }

  lemma HydrationTimeoutOk(p: Plane, hydration: nat)
    requires PlaneOk(p)
    ensures PlaneOk(HydrationTimeout(p, hydration))
  {
    hide InputOk, QueuesOk, SerialOk, DetachOk, ReattachOk, OpeningsOk;
    if HydrationTimeout(p, hydration) != p {
      var route := p.route.(hydration := Some(p.route.hydration.value.(armed := false)));
      RouteChangeOk(p, route);
      RecoverRouteOk(p.(route := route), hydration);
    }
  }

  // ---------------------------------------------------------------------------
  // Attaching.
  // ---------------------------------------------------------------------------

  lemma FreshSegment(segments: seq<Segment>, g: nat)
    ensures Admitted(segments + [Segment(g, [], false)]) == Admitted(segments)
    ensures Finished(segments + [Segment(g, [], false)]) == Finished(segments)
  {
    assert (segments + [Segment(g, [], false)])[..|segments|] == segments;
  }

  lemma FreshOutput(segments: seq<Segment>, delivered: seq<Item>, hydration: Option<Hydration>, h: Hydration)
    requires OutputOk(segments, delivered, hydration)
    requires !h.completed && h.buffered == [] && h.bufferedBytes == 0
    ensures OutputOk(segments + [Segment(h.generation, [], false)], delivered, Some(h))
  {
    FreshSegment(segments, h.generation);
  }

  lemma OpeningAdded(openings: seq<Held>, generation: nat, held: Held)
    requires OpeningsOk(openings, generation, false) && held.generation == generation
    ensures OpeningsOk(openings + [held], generation, true)
  {
  }

  lemma QueuesOpen(queues: map<nat, EventQueue>, queueId: nat, arrivals: seq<StreamEvent>, generation: nat)
    requires QueuesOk(queues, queueId, arrivals, generation, false)
    ensures QueuesOk(queues, queueId, arrivals, generation, true)
  {
    forall q: nat ensures QueueOk(QueueOf(queues, q), arrivals, generation, true, q == queueId) {
      assert QueueOk(QueueOf(queues, q), arrivals, generation, false, q == queueId);
    }
  }

  lemma AttachOpensOk(p: Plane, g: nat)
    requires PlaneOk(p) && p.life.attach == Some(AttachTask(g, Acquiring))
    requires IsCurrent(p.life, g) && p.life.listeners != {}
    ensures PlaneOk(AttachResume(p, g))
  {
    hide InputOk, QueuesOk, SerialOk, DetachOk, ReattachOk, OpeningsOk, OutputOk, Admitted, Finished;
    var q := AttachResume(p, g);
    FreshSegment(p.route.segments, g);
    FreshOutput(p.route.segments, p.route.delivered, p.route.hydration, q.route.hydration.value);
    OpeningAdded(p.life.openings, g, Held(p.life.subscription, g));
    QueuesOpen(p.route.queues, p.route.queueId, p.route.arrivals, g);
    GateOpensOk(p.input, GateOf(p.life, p.route), GateOf(q.life, q.route));
  }

  lemma AttachResumeOk(p: Plane, g: nat)
    requires PlaneOk(p)
    ensures PlaneOk(AttachResume(p, g))
  {
    hide InputOk, QueuesOk, SerialOk, OutputOk, DetachOk, ReattachOk, OpeningsOk;
    if p.life.attach == Some(AttachTask(g, Acquiring)) {
      if IsCurrent(p.life, g) && p.life.listeners != {} {
        AttachOpensOk(p, g);
      } else {
        LifeChangeOk(p, p.life.(attach := Some(AttachTask(g, AttachSettled))));
      }
    }
  }

  lemma ArmOk(p: Plane, route: Route)
    requires PlaneOk(p) && PlaneOk(p.(route := route))
    ensures PlaneOk(p.(route := Arm(route)))
  {
    hide InputOk, QueuesOk, SerialOk, DetachOk, ReattachOk, OpeningsOk;
    RouteChangeOk(p.(route := route), Arm(route));
  }

  lemma AttachReadyOk(p: Plane, g: nat, reserved: Option<nat>)
    requires PlaneOk(p)
    ensures PlaneOk(AttachReady(p, g, reserved))
  {
    hide InputOk, QueuesOk, SerialOk, OutputOk, DetachOk, ReattachOk, OpeningsOk;
    if p.life.attach == Some(AttachTask(g, Opening)) {
      var life := p.life.(attach := Some(AttachTask(g, AttachSettled)));
      LifeChangeOk(p, life);
      var route := p.route.(routeGeneration := if reserved.Some? then reserved else p.route.routeGeneration);
      RouteChangeOk(p.(life := life), route);
      ArmOk(p.(life := life), route);
    }
  }

  lemma AttachBookkeepingOk(p: Plane, g: nat)
    requires PlaneOk(p)
    ensures PlaneOk(AttachRejected(p, g)) && PlaneOk(AttachCleared(p, g)) && PlaneOk(MarkAttachSent(p, g))
  {
    hide InputOk, QueuesOk, SerialOk, OutputOk, DetachOk, ReattachOk, OpeningsOk;
    if AttachRejected(p, g) != p { LifeChangeOk(p, AttachRejected(p, g).life); }
    if AttachCleared(p, g) != p { LifeChangeOk(p, AttachCleared(p, g).life); }
    if MarkAttachSent(p, g) != p { LifeChangeOk(p, MarkAttachSent(p, g).life); }
  }

  // ---------------------------------------------------------------------------
  // Loss, recovery, detach, listeners.
  // ---------------------------------------------------------------------------

  lemma LossNamed(detaches: seq<Held>, lastAbandoned: Option<Abandoned>, generation: nat, owed: Abandoned)
    requires DetachOk(detaches, lastAbandoned, generation) && owed.held.generation == generation
    ensures DetachOk(detaches, Some(owed), generation + 1)
  {
  }

  lemma TransportLostOk(p: Plane)
    requires PlaneOk(p)
    ensures PlaneOk(TransportLost(p))
  {
    hide InputOk, QueuesOk, SerialOk, OutputOk, DetachOk, ReattachOk, OpeningsOk, LinkOk;
    if TransportLost(p) != p {
      HeldIsCurrent(p);
      var owed := Abandoned(HeldNow(p.life, p.route), p.route.attached || (p.life.stream.Some? && p.life.stream.value.attachSent));
      LossNamed(p.life.detaches, p.life.lastAbandoned, p.life.generation, owed);
      EndingOk(p, p.life.(transportLost := true, lastAbandoned := Some(owed)));
    }
  }

  lemma NewEpoch(reattaches: seq<nat>, epoch: nat, recoveries: nat)
    requires ReattachOk(reattaches, epoch, recoveries)
    ensures ReattachOk(reattaches, epoch + 1, 0)
  {
  }

  /** The debt of the last loss is paid, or dropped because its Attach never left. */
  lemma DebtSettled(detaches: seq<Held>, lastAbandoned: Option<Abandoned>, generation: nat)
    requires DetachOk(detaches, lastAbandoned, generation)
    ensures DetachOk(detaches, None, generation)
    ensures lastAbandoned.Some? ==> DetachOk(detaches + [lastAbandoned.value.held], None, generation)
  {
  }

  lemma TransportRecoveredOk(p: Plane)
    requires PlaneOk(p)
    ensures PlaneOk(TransportRecovered(p))
  {
    hide InputOk, QueuesOk, SerialOk, OutputOk, DetachOk, ReattachOk, OpeningsOk;
    if !p.life.detached && p.life.transportLost && p.life.listeners != {} {
      var owed := p.life.lastAbandoned;
      var life := p.life.(transportLost := false, snapshotRecoveries := 0, lastAbandoned := None,
                          recoveryEpoch := p.life.recoveryEpoch + 1);
      NewEpoch(p.life.reattaches, p.life.recoveryEpoch, p.life.snapshotRecoveries);
      DebtSettled(p.life.detaches, owed, p.life.generation);
      if life.fixedSubscription {
        LifeChangeOk(p, life);
        EnsureAttachedOk(p.(life := life));
      } else if owed.Some? && owed.value.attachSent {
        LifeChangeOk(p, TransportRecovered(p).life);
      } else {
        LifeChangeOk(p, MintSubscription(life));
        EnsureAttachedOk(p.(life := MintSubscription(life)));
      }
    }
  }

  lemma RecoveryContinuesOk(p: Plane)
    requires PlaneOk(p)
    ensures PlaneOk(RecoveryContinues(p))
  {
    hide InputOk, QueuesOk, SerialOk, OutputOk, DetachOk, ReattachOk, OpeningsOk;
    if p.life.continuations != 0 {
      var q := p.(life := p.life.(continuations := p.life.continuations - 1));
      LifeChangeOk(p, q.life);
      if !q.life.detached {
        EnsureAttachedOk(q);
      }
    }
  }

  /** The public detach names a generation no request has named. */
  lemma DetachAfterReset(detaches: seq<Held>, lastAbandoned: Option<Abandoned>, generation: nat, held: Held)
    requires DetachOk(detaches, lastAbandoned, generation) && held.generation == generation
    ensures DetachOk(detaches + [held], lastAbandoned, generation + 1)
  {
  }

  lemma DetachPlaneOk(p: Plane)
    requires PlaneOk(p)
    ensures PlaneOk(DetachPlane(p))
  {
    hide InputOk, QueuesOk, SerialOk, OutputOk, DetachOk, ReattachOk, OpeningsOk;
    if !p.life.detached {
      HeldIsCurrent(p);
      var held := HeldNow(p.life, p.route);
      DetachAges(p.life.detaches, p.life.lastAbandoned, p.life.generation);
      DetachAfterReset(p.life.detaches, p.life.lastAbandoned, p.life.generation, held);
      var gone := p.life.(detached := true, transportLost := false);
      EndingOk(p, gone);
      LifeChangeOk(Reset(p.(life := gone)), DetachPlane(p).life);
    }
  }

  lemma SubscribeOk(p: Plane, listener: nat)
    requires PlaneOk(p)
    ensures PlaneOk(Subscribe(p, listener))
  {
    hide InputOk, QueuesOk, SerialOk, OutputOk, DetachOk, ReattachOk, OpeningsOk;
    var q := p.(life := p.life.(listeners := p.life.listeners + {listener}));
    LifeChangeOk(p, q.life);
    if !q.life.detached {
      EnsureAttachedOk(q);
    }
  }

  lemma UnsubscribeOk(p: Plane, listener: nat)
    requires PlaneOk(p)
    ensures PlaneOk(Unsubscribe(p, listener))
  {
    hide InputOk, QueuesOk, SerialOk, OutputOk, DetachOk, ReattachOk, OpeningsOk;
    var q := p.(life := p.life.(listeners := p.life.listeners - {listener}));
    if q.life.listeners == {} && !q.life.detached {
      HeldIsCurrent(p);
      var held := HeldNow(p.life, p.route);
      DetachAges(p.life.detaches, p.life.lastAbandoned, p.life.generation);
      DetachNamed(p.life.detaches, p.life.lastAbandoned, p.life.generation, held);
      EndingOk(p, if p.life.stream.Some? then SendDetachOnce(q.life, held) else q.life);
    } else {
      LifeChangeOk(p, q.life);
    }
  }

  // ---------------------------------------------------------------------------
  // User input and the send chain.
  // ---------------------------------------------------------------------------

  lemma AdmittedOk(p: Plane, input: Input)
    requires PlaneOk(p) && !p.life.detached && InputOk(input, GateOf(p.life, p.route))
    ensures PlaneOk(PumpPlane(EnsureAttached(p.(input := input))))
  {
    hide InputOk, QueuesOk, SerialOk, OutputOk, DetachOk, ReattachOk, OpeningsOk, LinkOk, PlaneOk;
    InputChangeOk(p, input);
    EnsureAttachedOk(p.(input := input));
    PumpPlaneOk(EnsureAttached(p.(input := input)));
  }

  lemma PlaneInput(p: Plane)
    requires PlaneOk(p)
    ensures InputOk(p.input, GateOf(p.life, p.route))
  {
    hide InputOk, QueuesOk, SerialOk, OutputOk, DetachOk, ReattachOk, OpeningsOk, LinkOk;
  }

  lemma SendInputOk(p: Plane, op: Operation, requestedBytes: nat)
    requires PlaneOk(p)
    ensures PlaneOk(SendInput(p, op, requestedBytes))
  {
    hide InputOk, PlaneOk;
    if !p.life.detached && !op.Paste? && !op.Resize? {
      PlaneInput(p);
      AdmitInputOk(p.input, GateOf(p.life, p.route), op, requestedBytes);
      InputChangeOk(p, AdmitInput(p.input, op, requestedBytes));
      AdmittedOk(p, AdmitInput(p.input, op, requestedBytes));
    }
  }

  lemma ResizeToOk(p: Plane, geometry: Geometry)
    requires PlaneOk(p)
    ensures PlaneOk(ResizeTo(p, geometry))
  {
    hide InputOk, PlaneOk;
    if !p.life.detached {
      PlaneInput(p);
      DesiredOk(p.input, GateOf(p.life, p.route), Some(geometry), p.input.sent);
      AdmittedOk(p, p.input.(desired := Some(geometry)));
    }
  }

  lemma WritePasteOk(p: Plane, units: nat, data: Bytes)
    requires PlaneOk(p)
    ensures PlaneOk(WritePaste(p, units, data))
  {
    hide InputOk, PlaneOk;
    var gate := GateOf(p.life, p.route);
    var begun := BeginPaste(p.input);
    PlaneInput(p);
    ReleaseConsentOk(p.input, gate);
    var refusal := PasteRefusal(!p.life.detached, units, data);
    if refusal.Some? {
      RefuseOk(begun, gate, refusal.value);
      InputChangeOk(p, Refuse(begun, refusal.value));
    } else {
      AdmitPasteOk(begun, gate, data);
      InputChangeOk(p, AdmitPaste(begun, data));
      AdmittedOk(p, AdmitPaste(begun, data));
    }
  }

  lemma ConfirmOk(p: Plane, consent: Consent, now: nat)
    requires PlaneOk(p)
    ensures PlaneOk(Confirm(p, consent, now))
  {
    hide InputOk, PlaneOk;
    var gate := GateOf(p.life, p.route);
    PlaneInput(p);
    if ConsentMatches(p.input, consent) {
      ReleaseConsentOk(p.input, gate);
      InputChangeOk(p, ReleaseConsent(p.input));
      if ConsentUsable(gate, consent, now) {
        AdmitConfirmedOk(p.input, gate);
        InputChangeOk(p, AdmitConfirmed(p.input));
        AdmittedOk(p, AdmitConfirmed(p.input));
      }
    }
  }

  lemma CancelPasteOk(p: Plane, consent: Consent)
    requires PlaneOk(p)
    ensures PlaneOk(CancelPaste(p, consent))
  {
    hide InputOk, PlaneOk;
    PlaneInput(p);
    ReleaseConsentOk(p.input, GateOf(p.life, p.route));
    InputChangeOk(p, Cancel(p.input, consent));
  }

  lemma ChainRunKeeps(p: Plane, g: nat)
    requires PlaneOk(p)
    ensures PlaneOk(p.(input := ChainRun(p.input, GateOf(p.life, p.route), g)))
  {
    hide InputOk, PlaneOk;
    PlaneInput(p);
    ChainRunOk(p.input, GateOf(p.life, p.route), g);
    InputChangeOk(p, ChainRun(p.input, GateOf(p.life, p.route), g));
  }

  lemma SendDoneKeeps(p: Plane, g: nat)
    requires PlaneOk(p)
    ensures PlaneOk(p.(input := TerminalInput.SendDone(p.input, g)))
  {
    hide InputOk, PlaneOk;
    PlaneInput(p);
    SendDoneOk(p.input, GateOf(p.life, p.route), g);
    InputChangeOk(p, TerminalInput.SendDone(p.input, g));
  }

  lemma SendFailKeeps(p: Plane, g: nat)
    requires PlaneOk(p)
    ensures PlaneOk(p.(input := TerminalInput.SendFail(p.input, GateOf(p.life, p.route), g)))
  {
    hide InputOk, PlaneOk;
    PlaneInput(p);
    SendFailOk(p.input, GateOf(p.life, p.route), g);
    InputChangeOk(p, TerminalInput.SendFail(p.input, GateOf(p.life, p.route), g));
  }

  lemma AbortDoneKeeps(p: Plane, g: nat)
    requires PlaneOk(p)
    ensures PlaneOk(p.(input := AbortDone(p.input, g)))
  {
    hide InputOk, PlaneOk;
    PlaneInput(p);
    AbortDoneOk(p.input, GateOf(p.life, p.route), g);
    InputChangeOk(p, AbortDone(p.input, g));
  }

  lemma ChainCatchKeeps(p: Plane, g: nat)
    requires PlaneOk(p)
    ensures PlaneOk(p.(input := ChainCatch(p.input, GateOf(p.life, p.route), g)))
  {
    hide InputOk, PlaneOk;
    PlaneInput(p);
    ChainCatchOk(p.input, GateOf(p.life, p.route), g);
    InputChangeOk(p, ChainCatch(p.input, GateOf(p.life, p.route), g));
  }

  // ---------------------------------------------------------------------------
  // Event queues.
  // ---------------------------------------------------------------------------

  /** A queue stays well formed when arrivals go on, whether or not it takes the new one. */
  lemma QueueArrives(queue: EventQueue, arrivals: seq<StreamEvent>, generation: nat, open: bool, current: bool, tag: nat, event: StreamEvent)
    requires QueueOk(queue, arrivals, generation, open, current)
    ensures QueueOk(queue, arrivals + [event], generation, open, current)
    ensures Admissible(tag, generation, open, current) ==>
      QueueOk(queue.(items := queue.items + [Arrival(|arrivals|, tag, event)]), arrivals + [event], generation, open, current)
  {
  }

  lemma ArriveQueues(queues: map<nat, EventQueue>, queueId: nat, arrivals: seq<StreamEvent>, generation: nat, open: bool,
                     tag: nat, event: StreamEvent)
    requires QueuesOk(queues, queueId, arrivals, generation, open) && Admissible(tag, generation, open, true)
    ensures var queue := QueueOf(queues, queueId);
      var grown := queue.(items := queue.items + [Arrival(|arrivals|, tag, event)]);
      QueuesOk(queues[queueId := grown], queueId, arrivals + [event], generation, open)
  {
    hide QueueOk, Admissible;
    var queue := QueueOf(queues, queueId);
    var grown := queue.(items := queue.items + [Arrival(|arrivals|, tag, event)]);
    var changed := queues[queueId := grown];
    forall q: nat
      ensures QueueOk(QueueOf(changed, q), arrivals + [event], generation, open, q == queueId)
      ensures q > queueId ==> QueueOf(changed, q) == IDLE_QUEUE
    {
      assert QueueOk(QueueOf(queues, q), arrivals, generation, open, q == queueId);
      QueueArrives(QueueOf(queues, q), arrivals, generation, open, q == queueId, tag, event);
    }
  }

  lemma ArriveSerial(admitted: seq<Item>, items: seq<Arrival>, arrivals: seq<StreamEvent>, tag: nat, event: StreamEvent)
    requires SerialOk(admitted, items, arrivals)
    ensures SerialOk(admitted, items + [Arrival(|arrivals|, tag, event)], arrivals + [event])
  {
    forall k | 0 <= k < |admitted| ensures CarriedBy(admitted[k], arrivals + [event]) && admitted[k].serial < |arrivals| {
      assert CarriedBy(admitted[k], arrivals);
    }
  }

  /** Only a generation that opened a stream delivers, so the tag is admissible. */
  lemma DeliversAdmissible(openings: seq<Held>, generation: nat, open: bool, life: Life, tag: nat)
    requires OpeningsOk(openings, generation, open) && life.openings == openings && Delivers(life, tag)
    ensures Admissible(tag, generation, open, true)
  {
    var k :| 0 <= k < |openings| && openings[k].generation == tag;
    assert k < |openings| - 1 ==> openings[k].generation < openings[|openings| - 1].generation;
  }

  lemma ArriveOk(p: Plane, tag: nat, event: StreamEvent)
    requires PlaneOk(p)
    ensures PlaneOk(Arrive(p, tag, event))
  {
    hide InputOk, QueuesOk, SerialOk, OutputOk, DetachOk, ReattachOk, OpeningsOk;
    if Delivers(p.life, tag) {
      DeliversAdmissible(p.life.openings, p.life.generation, p.life.stream.Some?, p.life, tag);
      ArriveQueues(p.route.queues, p.route.queueId, p.route.arrivals, p.life.generation, p.life.stream.Some?, tag, event);
      ArriveSerial(Admitted(p.route.segments), QueueOf(p.route.queues, p.route.queueId).items, p.route.arrivals, tag, event);
      RouteChangeOk(p, Arrive(p, tag, event).route);
    }
  }

  /** A queue shrinks from the front, or its install moves on, and stays fenced. */
  lemma QueueChangeOk(p: Plane, q: nat, queue: EventQueue)
    requires PlaneOk(p)
    requires var old_ := QueueOf(p.route.queues, q);
      queue.items == old_.items || (old_.items != [] && queue.items == old_.items[1..])
    requires queue.install.Some? ==> Admissible(queue.install.value.generation, p.life.generation, p.life.stream.Some?, q == p.route.queueId)
    requires q > p.route.queueId ==> queue == IDLE_QUEUE
    ensures PlaneOk(p.(route := SetQueue(p.route, q, queue)))
  {
    hide InputOk, OutputOk, DetachOk, ReattachOk, OpeningsOk;
    QueueSet(p.route.queues, p.route.queueId, p.route.arrivals, p.life.generation, p.life.stream.Some?, q, queue);
    RouteChangeOk(p, SetQueue(p.route, q, queue));
  }

  lemma QueueSet(queues: map<nat, EventQueue>, queueId: nat, arrivals: seq<StreamEvent>, generation: nat, open: bool,
                 q: nat, queue: EventQueue)
    requires QueuesOk(queues, queueId, arrivals, generation, open)
    requires var old_ := QueueOf(queues, q);
      queue.items == old_.items || (old_.items != [] && queue.items == old_.items[1..])
    requires queue.install.Some? ==> Admissible(queue.install.value.generation, generation, open, q == queueId)
    requires q > queueId ==> queue == IDLE_QUEUE
    ensures QueuesOk(queues[q := queue], queueId, arrivals, generation, open)
  {
    var changed := queues[q := queue];
    forall r: nat
      ensures QueueOk(QueueOf(changed, r), arrivals, generation, open, r == queueId)
      ensures r > queueId ==> QueueOf(changed, r) == IDLE_QUEUE
    {
      assert QueueOk(QueueOf(queues, r), arrivals, generation, open, r == queueId);
    }
  }

  lemma EndInstallOk(p: Plane, q: nat)
    requires PlaneOk(p) && p.route.Queue(q).install.Some?
    ensures PlaneOk(EndInstall(p, q))
  {
    hide InputOk, SerialOk, OutputOk, DetachOk, ReattachOk, OpeningsOk;
    assert p.route.Queue(q) == QueueOf(p.route.queues, q);
    QueueChangeOk(p, q, p.route.Queue(q).(install := None));
  }

  // ---------------------------------------------------------------------------
  // Output and hydration.
  // ---------------------------------------------------------------------------

  lemma LastSegment(before: seq<Segment>, last: Segment)
    ensures Admitted(before + [last]) == Admitted(before) + last.admitted
    ensures Finished(before + [last]) == Finished(before) + if last.finished then last.admitted else []
  {
    assert (before + [last])[..|before|] == before;
  }

  lemma Appended(a: seq<Item>, b: seq<Item>, item: Item)
    ensures a + (b + [item]) == (a + b) + [item]
  {
  }

  lemma AdmittedGrows(segments: seq<Segment>, item: Item)
    requires segments != []
    ensures Admitted(AdmitToLast(segments, item)) == Admitted(segments) + [item]
    ensures segments[|segments| - 1].finished ==> Finished(AdmitToLast(segments, item)) == Finished(segments) + [item]
    ensures !segments[|segments| - 1].finished ==> Finished(AdmitToLast(segments, item)) == Finished(segments)
  {
    hide Admitted, Finished;
    var before, last := segments[..|segments| - 1], segments[|segments| - 1];
    var more := last.(admitted := last.admitted + [item]);
    assert AdmitToLast(segments, item) == before + [more];
    LastSegment(before, more);
    Appended(Admitted(before), last.admitted, item);
    Appended(Finished(before), last.admitted, item);
    assert segments == before + [last];
    LastSegment(before, last);
  }

  lemma FinishGrows(segments: seq<Segment>)
    requires segments != []
    ensures Admitted(FinishLast(segments)) == Admitted(segments)
    ensures !segments[|segments| - 1].finished ==> Finished(FinishLast(segments)) == Finished(segments) + segments[|segments| - 1].admitted
  {
    var before, last := segments[..|segments| - 1], segments[|segments| - 1];
    LastSegment(before, last.(finished := true));
    assert Finished(before) + [] == Finished(before);
  }

  lemma SerialGrows(admitted: seq<Item>, items: seq<Arrival>, arrivals: seq<StreamEvent>, item: Item)
    requires SerialOk(admitted, items, arrivals) && CarriedBy(item, arrivals)
    requires forall j :: 0 <= j < |admitted| ==> admitted[j].serial < item.serial
    requires forall k :: 0 <= k < |items| ==> item.serial < items[k].serial
    ensures SerialOk(admitted + [item], items, arrivals)
  {
  }

  /** The arrival being handled: after everything admitted, before everything still queued. */
  ghost predicate Next(p: Plane, serial: nat) {
    && (forall j :: 0 <= j < |Admitted(p.route.segments)| ==> Admitted(p.route.segments)[j].serial < serial)
    && (forall k :: 0 <= k < |QueueOf(p.route.queues, p.route.queueId).items| ==>
          serial < QueueOf(p.route.queues, p.route.queueId).items[k].serial)
  }

  /** A payload of a running snapshot is buffered and counted. */
  lemma OutputBuffers(segments: seq<Segment>, delivered: seq<Item>, h: Hydration, item: Item)
    requires OutputOk(segments, delivered, Some(h)) && !h.completed
    ensures OutputOk(AdmitToLast(segments, item), delivered,
      Some(h.(buffered := h.buffered + [item], bufferedBytes := h.bufferedBytes + |item.data|)))
  {
    hide Admitted, Finished;
    AdmittedGrows(segments, item);
    assert (h.buffered + [item])[..|h.buffered|] == h.buffered;
  }

  /** A payload of a live screen is delivered. */
  lemma OutputDelivers(segments: seq<Segment>, delivered: seq<Item>, h: Hydration, item: Item)
    requires OutputOk(segments, delivered, Some(h)) && h.completed
    ensures OutputOk(AdmitToLast(segments, item), delivered + [item], Some(h))
  {
    hide Admitted, Finished, BufferedBytes;
    AdmittedGrows(segments, item);
  }

  lemma ReceiveOutputOk(p: Plane, tag: nat, item: Item)
    requires PlaneOk(p) && p.life.stream.Some? && tag == p.life.generation && !p.life.detached
    requires CarriedBy(item, p.route.arrivals) && Next(p, item.serial)
    ensures PlaneOk(ReceiveOutput(p, tag, item))
  {
    hide InputOk, QueuesOk, SerialOk, DetachOk, ReattachOk, OpeningsOk, OutputOk, Admitted, Finished, AdmitToLast,
         CarriedBy, Overflows, RecoverRoute;
    SegmentsThere(p);
    var h := p.route.hydration.value;
    if !h.completed && Overflows(h, item.data) {
      RecoverRouteOk(p, h.id);
    } else {
      AdmittedGrows(p.route.segments, item);
      SerialGrows(Admitted(p.route.segments), QueueOf(p.route.queues, p.route.queueId).items, p.route.arrivals, item);
      if h.completed {
        OutputDelivers(p.route.segments, p.route.delivered, h, item);
      } else {
        OutputBuffers(p.route.segments, p.route.delivered, h, item);
      }
      RouteChangeOk(p, ReceiveOutput(p, tag, item).route);
    }
  }

  lemma SegmentsThere(p: Plane)
    requires PlaneOk(p) && p.life.stream.Some?
    ensures p.route.hydration.Some? && p.route.segments != []
  {
    hide InputOk, QueuesOk, SerialOk, DetachOk, ReattachOk, OpeningsOk;
  }

  lemma ReceiveExitOk(p: Plane, tag: nat, code: int)
    requires PlaneOk(p)
    ensures PlaneOk(ReceiveExit(p, tag, code))
  {
    hide InputOk, QueuesOk, SerialOk, DetachOk, ReattachOk, OpeningsOk;
    RouteChangeOk(p, ReceiveExit(p, tag, code).route);
  }

  lemma CompleteHydrationOk(p: Plane)
    requires PlaneOk(p) && p.route.hydration.Some?
    requires !p.route.hydration.value.completed && p.route.hydration.value.readyReceived
    ensures PlaneOk(CompleteHydration(p))
  {
    hide InputOk, QueuesOk, SerialOk, DetachOk, ReattachOk, OpeningsOk, Admitted;
    var h := p.route.hydration.value;
    var route := p.route.(
      hydration := Some(h.(completed := true, armed := false, buffered := [], bufferedBytes := 0)),
      delivered := p.route.delivered + h.buffered,
      segments := FinishLast(p.route.segments),
      exits := if h.pendingExit.Some? then p.route.exits + [h.pendingExit.value] else p.route.exits);
    FinishGrows(p.route.segments);
    RouteChangeOk(p, route);
    PumpPlaneOk(p.(route := route));
  }

  lemma HydrationIsThere(p: Plane)
    requires PlaneOk(p) && p.life.stream.Some?
    ensures EnsureHydration(p.route, p.life.generation) == p.route && p.route.hydration.Some?
  {
    hide InputOk, QueuesOk, SerialOk, DetachOk, ReattachOk, OpeningsOk;
  }

  lemma ReceiveFinishOk(p: Plane, tag: nat)
    requires PlaneOk(p) && p.life.stream.Some? && tag == p.life.generation
    ensures PlaneOk(ReceiveFinish(p, tag))
  {
    hide InputOk, QueuesOk, SerialOk, DetachOk, ReattachOk, OpeningsOk;
    HydrationIsThere(p);
    var h := p.route.hydration.value;
    if !h.completed {
      if !h.readyReceived {
        CloseStreamOk(p);
      } else {
        var route := p.route.(hydration := Some(h.(historyIncomplete := h.historyIncomplete || !h.decoderFinished)));
        RouteChangeOk(p, route);
        CompleteHydrationOk(p.(route := route));
      }
    }
  }

  lemma ReceiveHistoryUnavailableOk(p: Plane, tag: nat)
    requires PlaneOk(p) && p.life.stream.Some? && tag == p.life.generation
    ensures PlaneOk(ReceiveHistoryUnavailable(p, tag))
  {
    hide InputOk, QueuesOk, SerialOk, DetachOk, ReattachOk, OpeningsOk;
    HydrationIsThere(p);
    if !p.route.hydration.value.readyReceived {
      CloseStreamOk(p);
    } else {
      RouteChangeOk(p, ReceiveHistoryUnavailable(p, tag).route);
    }
  }

  lemma ReceiveResyncOk(p: Plane, tag: nat, toEpoch: nat)
    requires PlaneOk(p) && p.life.stream.Some? && tag == p.life.generation && p.route.attached
    ensures PlaneOk(ReceiveResync(p, tag, toEpoch))
  {
    hide InputOk, QueuesOk, SerialOk, DetachOk, ReattachOk, OpeningsOk;
    PlaneInput(p);
    ReleaseConsentOk(p.input, GateOf(p.life, p.route));
    InputChangeOk(p, ReleaseConsent(p.input));
    FreshSegment(p.route.segments, tag);
    RouteChangeOk(p.(input := ReleaseConsent(p.input)), ReceiveResync(p, tag, toEpoch).route);
  }

  lemma ReceiveAttachStateOk(p: Plane, tag: nat, state: AttachState)
    requires PlaneOk(p) && p.life.stream.Some? && tag == p.life.generation && !p.life.detached
    ensures PlaneOk(ReceiveAttachState(p, tag, state))
  {
    hide InputOk, QueuesOk, SerialOk, OutputOk, DetachOk, ReattachOk, OpeningsOk;
    match state {
      case Attached =>
        var route := p.route.(attached := true, acceptedEpoch := Some(0));
        RouteChangeOk(p, route);
        PumpPlaneOk(p.(route := route));
      case Attaching =>
      case AttachFailed =>
        RecoverRouteOk(p, p.route.hydration.value.id);
        CloseStreamOk(p);
      case RouteDetached => CloseStreamOk(p);
    }
  }

  lemma BeginInstallOk(p: Plane, q: nat, tag: nat, ready: bool)
    requires PlaneOk(p) && p.life.stream.Some? && tag == p.life.generation && q == p.route.queueId
    ensures PlaneOk(BeginInstall(p, q, tag, ready))
  {
    hide InputOk, SerialOk, OutputOk, DetachOk, ReattachOk, OpeningsOk, QueuesOk;
    HydrationIsThere(p);
    assert p.route.Queue(q) == QueueOf(p.route.queues, q);
    QueueChangeOk(p, q, p.route.Queue(q).(install := Some(Install(p.route.hydration.value.id, tag, ready, false))));
  }

  lemma InputResultOk(p: Plane, id: nat, name: OutcomeName, accepted: Option<nat>, written: Option<nat>, now: nat)
    requires PlaneOk(p)
    ensures PlaneOk(p.(input := SettleResult(p.input, GateOf(p.life, p.route), id, name, accepted, written, now)))
  {
    hide InputOk, PlaneOk;
    PlaneInput(p);
    SettleResultOk(p.input, GateOf(p.life, p.route), id, name, accepted, written, now);
    InputChangeOk(p, SettleResult(p.input, GateOf(p.life, p.route), id, name, accepted, written, now));
  }

  /** A frame of the current attachment, dispatched from the current queue. */
  ghost predicate Handles(p: Plane, q: nat, serial: nat, tag: nat, body: Body) {
    && p.life.stream.Some? && !p.life.detached && tag == p.life.generation && q == p.route.queueId
    && serial < |p.route.arrivals| && p.route.arrivals[serial].Frame? && p.route.arrivals[serial].body == body
    && Next(p, serial)
    && (body.RouteResync? ==> p.route.attached)
  }

  lemma HandleBodyOk(p: Plane, q: nat, serial: nat, tag: nat, body: Body, now: nat)
    requires PlaneOk(p) && Handles(p, q, serial, tag, body)
    ensures PlaneOk(HandleBody(p, q, serial, tag, body, now))
  {
    hide PlaneOk, InputOk, QueueOf, Admitted;
    match body {
      case Undecodable =>
      case Output(payload) => ReceiveOutputOk(p, tag, Item(serial, payload));
      case SnapshotReady(_) => BeginInstallOk(p, q, tag, true);
      case SnapshotHistory(_) => BeginInstallOk(p, q, tag, false);
      case SnapshotFinish => ReceiveFinishOk(p, tag);
      case ProcessExit(code) => ReceiveExitOk(p, tag, code);
      case Modes =>
      case AttachStateFrame(state) => ReceiveAttachStateOk(p, tag, state);
      case InputResult(id, name, accepted, written) => InputResultOk(p, id, name, accepted, written, now);
      case HistoryUnavailable => ReceiveHistoryUnavailableOk(p, tag);
      case RouteResync(_, to) => ReceiveResyncOk(p, tag, to);
    }
  }

  lemma ReceiveFrameOk(p: Plane, q: nat, serial: nat, tag: nat, frame: StreamEvent, now: nat)
    requires PlaneOk(p) && frame.Frame?
    requires p.life.stream.Some? && !p.life.detached && tag == p.life.generation && q == p.route.queueId
    requires serial < |p.route.arrivals| && p.route.arrivals[serial] == frame && Next(p, serial)
    ensures PlaneOk(ReceiveFrame(p, q, serial, tag, frame, now))
  {
    hide InputOk, QueuesOk, SerialOk, OutputOk, DetachOk, ReattachOk, OpeningsOk;
    if frame.body.Undecodable? {
      CloseStreamOk(p);
    } else if AdmitsGeneration(p.route, frame.generation) {
      var fenced := p.(route := p.route.(routeGeneration := Some(frame.generation)));
      RouteChangeOk(p, fenced.route);
      if AdmitsEpoch(p.route, frame.epoch, frame.body) {
        HandleBodyOk(fenced, q, serial, tag, frame.body, now);
      }
    }
  }

  lemma HandleArrivalOk(p: Plane, q: nat, a: Arrival, now: nat)
    requires PlaneOk(p) && Admissible(a.tag, p.life.generation, p.life.stream.Some?, q == p.route.queueId)
    requires a.serial < |p.route.arrivals| && p.route.arrivals[a.serial] == a.event
    requires q == p.route.queueId ==> Next(p, a.serial)
    ensures PlaneOk(HandleArrival(p, q, a, now))
  {
    hide InputOk, PlaneOk, QueueOf, Admitted;
    if IsCurrent(p.life, a.tag) {
      match a.event {
        case Closed(subscription, adapterClosed) =>
          CloseStreamOk(p);
          ResetOk(p);
        case Frame(route, _, _, _) =>
          ReceiveFrameOk(p, q, a.serial, a.tag, a.event, now);
      }
    }
  }

  lemma DispatchHead(p: Plane, q: nat)
    requires PlaneOk(p) && QueueOf(p.route.queues, q).items != []
    ensures var queue := QueueOf(p.route.queues, q);
      var popped := p.(route := SetQueue(p.route, q, queue.(items := queue.items[1..])));
      && PlaneOk(popped)
      && Admissible(queue.items[0].tag, p.life.generation, p.life.stream.Some?, q == p.route.queueId)
      && queue.items[0].serial < |p.route.arrivals| && p.route.arrivals[queue.items[0].serial] == queue.items[0].event
      && (q == p.route.queueId ==> Next(popped, queue.items[0].serial))
  {
    hide InputOk, OutputOk, DetachOk, ReattachOk, OpeningsOk;
    var queue := QueueOf(p.route.queues, q);
    assert QueueOk(queue, p.route.arrivals, p.life.generation, p.life.stream.Some?, q == p.route.queueId);
    QueueChangeOk(p, q, queue.(items := queue.items[1..]));
  }

  lemma DispatchOk(p: Plane, q: nat, now: nat)
    requires PlaneOk(p)
    ensures PlaneOk(Dispatch(p, q, now))
  {
    hide InputOk, PlaneOk, Admitted;
    var queue := p.route.Queue(q);
    assert queue == QueueOf(p.route.queues, q);
    if queue.install.None? && queue.items != [] {
      DispatchHead(p, q);
      HandleArrivalOk(p.(route := SetQueue(p.route, q, queue.(items := queue.items[1..]))), q, queue.items[0], now);
    }
  }

  lemma StartInstallOk(p: Plane, q: nat)
    requires PlaneOk(p)
    ensures PlaneOk(StartInstall(p, q))
  {
    hide InputOk, SerialOk, OutputOk, DetachOk, ReattachOk, OpeningsOk;
    var queue := p.route.Queue(q);
    assert queue == QueueOf(p.route.queues, q);
    if queue.install.Some? && !queue.install.value.reading {
      EndInstallOk(p, q);
      CloseStreamOk(EndInstall(p, q));
      assert QueueOk(queue, p.route.arrivals, p.life.generation, p.life.stream.Some?, q == p.route.queueId);
      QueueChangeOk(p, q, queue.(install := Some(queue.install.value.(reading := true))));
    }
  }

  /** What the reader reports of the running hydration changes its progress only. */
  lemma ProgressOk(p: Plane, h: Hydration)
    requires PlaneOk(p) && p.route.hydration.Some?
    requires var held := p.route.hydration.value;
      h == held.(readyReceived := true) || h == held.(decoderFinished := true) || h == held
    ensures PlaneOk(p.(route := Arm(p.route.(hydration := Some(h)))))
  {
    hide InputOk, SerialOk, DetachOk, ReattachOk, OpeningsOk, QueuesOk, Admitted, Finished, BufferedBytes;
    var route := p.route.(hydration := Some(h));
    RouteChangeOk(p, route);
    ArmOk(p, route);
  }

  lemma ReaderDoneOk(p: Plane, q: nat, progress: Progress)
    requires PlaneOk(p)
    ensures PlaneOk(ReaderDone(p, q, progress))
  {
    hide PlaneOk, Arm, CloseStream;
    var queue := p.route.Queue(q);
    if queue.install.Some? && queue.install.value.reading {
      var ended := EndInstall(p, q);
      EndInstallOk(p, q);
      CloseStreamOk(ended);
      if InstallCurrent(p, queue.install.value) {
        var h := p.route.hydration.value;
        ProgressOk(ended, h.(readyReceived := true));
        ProgressOk(ended, h.(decoderFinished := true));
        ProgressOk(ended, h);
        assert ended.route.(hydration := Some(h)) == ended.route;
      }
    }
  }

  lemma ReaderFailedOk(p: Plane, q: nat)
    requires PlaneOk(p)
    ensures PlaneOk(ReaderFailed(p, q))
  {
    hide InputOk, SerialOk, OutputOk, DetachOk, ReattachOk, OpeningsOk, QueuesOk, PlaneOk;
    var queue := p.route.Queue(q);
    if queue.install.Some? && queue.install.value.reading {
      EndInstallOk(p, q);
      if InstallCurrent(p, queue.install.value) {
        RecoverRouteOk(EndInstall(p, q), queue.install.value.hydration);
      }
    }
  }

  // ---------------------------------------------------------------------------
  // Every event, every run.
  // ---------------------------------------------------------------------------

  lemma BindReaderOk(p: Plane)
    requires PlaneOk(p)
    ensures PlaneOk(p.(route := p.route.(readerBound := true)))
  {
    hide InputOk, QueuesOk, SerialOk, OutputOk, DetachOk, ReattachOk, OpeningsOk;
    RouteChangeOk(p, p.route.(readerBound := true));
  }

  lemma StepOkOnUser(p: Plane, e: Event)
    requires PlaneOk(p)
    requires e.User()
    ensures PlaneOk(OnUser(p, e))
  {
    hide PlaneOk, Subscribe, Unsubscribe, SendInput, ResizeTo, WritePaste, Confirm, CancelPaste;
    match e {
      case EvSubscribe(l) => SubscribeOk(p, l);
      case EvUnsubscribe(l) => UnsubscribeOk(p, l);
      case EvBindReader => BindReaderOk(p);
      case EvSendInput(op, n) => SendInputOk(p, op, n);
      case EvResize(geometry) => ResizeToOk(p, geometry);
      case EvPaste(units, data) => WritePasteOk(p, units, data);
      case EvConfirm(consent, now) => ConfirmOk(p, consent, now);
      case EvCancel(consent) => CancelPasteOk(p, consent);
      case EvConsentExpires(consent) => CancelPasteOk(p, consent);
    }
  }

  lemma StepOkOnChain(p: Plane, e: Event)
    requires PlaneOk(p)
    requires e.Chain()
    ensures PlaneOk(OnChain(p, e))
  {
    hide PlaneOk, ChainRun, TerminalInput.SendDone, TerminalInput.SendFail, AbortDone, ChainCatch;
    match e {
      case EvChainRun(g) => ChainRunKeeps(p, g);
      case EvSendDone(g) => SendDoneKeeps(p, g);
      case EvSendFail(g) => SendFailKeeps(p, g);
      case EvAbortDone(g) => AbortDoneKeeps(p, g);
      case EvChainCatch(g) => ChainCatchKeeps(p, g);
    }
  }

  lemma StepOkOnDelivery(p: Plane, e: Event)
    requires PlaneOk(p)
    requires e.Delivery()
    ensures PlaneOk(OnDelivery(p, e))
  {
    hide PlaneOk, Arrive, Dispatch, StartInstall, ReaderDone, ReaderFailed, HydrationTimeout;
    match e {
      case EvArrive(tag, event) => ArriveOk(p, tag, event);
      case EvDispatch(q, now) => DispatchOk(p, q, now);
      case EvStartInstall(q) => StartInstallOk(p, q);
      case EvReaderDone(q, progress) => ReaderDoneOk(p, q, progress);
      case EvReaderFailed(q) => ReaderFailedOk(p, q);
      case EvHydrationTimeout(h) => HydrationTimeoutOk(p, h);
    }
  }

  lemma StepOkOnLifecycle(p: Plane, e: Event)
    requires PlaneOk(p)
    requires !e.User() && !e.Chain() && !e.Delivery()
    ensures PlaneOk(OnLifecycle(p, e))
  {
    hide PlaneOk, AttachResume, MarkAttachSent, AttachReady, AttachRejected, AttachCleared, TransportLost,
         TransportRecovered, RecoveryContinues, DetachPlane;
    match e {
      case EvAttachResume(g) => AttachResumeOk(p, g);
      case EvAttachSent(g) => AttachBookkeepingOk(p, g);
      case EvAttachReady(g, reserved) => AttachReadyOk(p, g, reserved);
      case EvAttachRejected(g) => AttachBookkeepingOk(p, g);
      case EvAttachCleared(g) => AttachBookkeepingOk(p, g);
      case EvTransportLost => TransportLostOk(p);
      case EvRouteChannelClosed(_) => TransportLostOk(p);
      case EvTransportRecovered => TransportRecoveredOk(p);
      case EvRecoveryContinues => RecoveryContinuesOk(p);
      case EvDetach => DetachPlaneOk(p);
    }
  }

  lemma StepOk(p: Plane, e: Event)
    requires PlaneOk(p)
    ensures PlaneOk(Step(p, e))
  {
    hide PlaneOk, OnUser, OnChain, OnDelivery, OnLifecycle;
    if e.User() {
      StepOkOnUser(p, e);
    } else if e.Chain() {
      StepOkOnChain(p, e);
    } else if e.Delivery() {
      StepOkOnDelivery(p, e);
    } else {
      StepOkOnLifecycle(p, e);
    }
  }

  /** The invariant holds in every state any sequence of events reaches. */
  lemma {:induction false} RunOk(fixedSubscription: bool, events: seq<Event>)
    ensures PlaneOk(Run(Initial(fixedSubscription), events))
    decreases |events|
  {
    hide PlaneOk;
    if events == [] {
      InitialOk(fixedSubscription);
    } else {
      RunOk(fixedSubscription, events[..|events| - 1]);
      StepOk(Run(Initial(fixedSubscription), events[..|events| - 1]), events[|events| - 1]);
    }
  }
}
