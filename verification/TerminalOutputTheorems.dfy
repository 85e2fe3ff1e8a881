/** What the listeners receive, over every run: whole finished snapshots' worth of output, in arrival
    order, and nothing of a hydration that ended early. */
module TerminalOutputTheorems {
  import opened Wrappers
  import opened TerminalInput
  import opened TerminalInputProofs
  import opened TerminalPlane
  import opened TerminalPlaneProofs
  import opened TerminalHistory

  // ---------------------------------------------------------------------------
  // Exactly which payloads are admitted.
  // ---------------------------------------------------------------------------

  /** Both fences pass: the frame belongs to this attachment, its reserved route and accepted epoch. */
  predicate FencesPass(p: Plane, a: Arrival) {
    && a.event.Frame? && !a.event.body.Undecodable?
    && !p.life.detached && a.tag == p.life.generation
    && a.event.route == p.life.subscription
    && (p.route.routeGeneration.Some? ==> p.route.routeGeneration.value == a.event.generation)
    && p.route.acceptedEpoch == Some(a.event.epoch)
  }

  /** The snapshot is still being restored and its buffer has no room for the payload. */
  predicate Overflowing(p: Plane, data: Bytes) {
    && p.route.hydration.Some? && !p.route.hydration.value.completed
    && var buffered := p.route.hydration.value.buffered;
       BufferedBytes(buffered) + |data| > 8388608 || |buffered| + 1 > 256
  }

  predicate Dispatches(p: Plane, q: nat) {
    p.route.Queue(q).install.None? && p.route.Queue(q).items != []
  }

  /** The payload event e admits, if any. */
  function AdmittedBy(p: Plane, e: Event): seq<Item> {
    if !e.EvDispatch? || !Dispatches(p, e.queue) then [] else
      var a := p.route.Queue(e.queue).items[0];
      if FencesPass(p, a) && a.event.body.Output? && !Overflowing(p, a.event.body.payload)
      then [Item(a.serial, a.event.body.payload)] else []
  }

  /** No payload was admitted, though a segment may have begun. */
  predicate NothingAdmitted(before: seq<Segment>, after: seq<Segment>) {
    || after == before
    || (|after| == |before| + 1 && after[..|before|] == before
        && after[|before|].admitted == [] && !after[|before|].finished)
  }

  /** The running snapshot is closed by event e: FINISH, after the visible screen was restored. */
  predicate FinishesBy(p: Plane, e: Event) {
    && e.EvDispatch? && Dispatches(p, e.queue)
    && FencesPass(p, p.route.Queue(e.queue).items[0])
    && p.route.Queue(e.queue).items[0].event.body.SnapshotFinish?
    && p.route.hydration.Some? && p.route.hydration.value.readyReceived && !p.route.hydration.value.completed
  }

  /** Of the segments after an event, the finished ones are those finished before and, if `now`, the last one. */
  predicate FinishedAfter(before: seq<Segment>, after: seq<Segment>, now: bool) {
    && |before| <= |after|
    && forall n :: 0 <= n < |after| ==>
         (after[n].finished <==> (n < |before| && before[n].finished) || (now && n == |before| - 1))
  }

  lemma NothingAdds(before: seq<Segment>, after: seq<Segment>)
    requires NothingAdmitted(before, after)
    ensures Admitted(after) == Admitted(before)
    ensures FinishedAfter(before, after, false)
  {
    if after != before {
      assert forall n :: 0 <= n < |before| ==> after[n] == after[..|before|][n];
    }
    if after != before {
      assert after == before + [after[|before|]];
      LastSegment(before, after[|before|]);
    }
  }

  lemma InstallsAdmitNothing(p: Plane, q: nat, hydration: nat)
    ensures NothingAdmitted(p.route.segments, StartInstall(p, q).route.segments)
    ensures NothingAdmitted(p.route.segments, HydrationTimeout(p, hydration).route.segments)
  {
    hide Abandon, SendDetachOnce, MintSubscription;
  }

  lemma ReadersAdmitNothing(p: Plane, q: nat, progress: Progress)
    ensures NothingAdmitted(p.route.segments, ReaderDone(p, q, progress).route.segments)
    ensures NothingAdmitted(p.route.segments, ReaderFailed(p, q).route.segments)
  {
    hide Abandon, SendDetachOnce, MintSubscription;
  }

  lemma UsersAdmitNothing(p: Plane, e: Event)
    ensures NothingAdmitted(p.route.segments, OnUser(p, e).route.segments)
  {
    hide Pump, AdmitInput, AdmitPaste, AdmitConfirmed, Abandon;
  }

  /** Attaching, loss, recovery and detach. */
  lemma LifecyclesAdmitNothing(p: Plane, e: Event)
    ensures NothingAdmitted(p.route.segments, OnLifecycle(p, e).route.segments)
  {
    hide Abandon;
  }

  lemma OthersAdmitNothing(p: Plane, e: Event)
    requires !e.EvDispatch?
    ensures NothingAdmitted(p.route.segments, Step(p, e).route.segments)
  {
    hide OnUser, OnLifecycle, ChainRun, ChainCatch, TerminalInput.SendDone, TerminalInput.SendFail, AbortDone,
         StartInstall, ReaderDone, ReaderFailed, HydrationTimeout;
    if e.User() {
      UsersAdmitNothing(p, e);
    } else if !e.Chain() && !e.Delivery() {
      LifecyclesAdmitNothing(p, e);
    } else {
      match e {
        case EvStartInstall(q) => InstallsAdmitNothing(p, q, 0);
        case EvReaderDone(q, progress) => ReadersAdmitNothing(p, q, progress);
        case EvReaderFailed(q) => ReadersAdmitNothing(p, q, ReaderPage);
        case EvHydrationTimeout(h) => InstallsAdmitNothing(p, 0, h);
        case _ =>
      }
    }
  }

  /** The kept counter decides overflow as the buffered payloads themselves would. */
  lemma CounterDecides(p: Plane, data: Bytes)
    requires PlaneOk(p) && p.route.hydration.Some? && !p.route.hydration.value.completed
    ensures Overflows(p.route.hydration.value, data) <==> Overflowing(p, data)
  {
    hide InputOk, QueuesOk, SerialOk, DetachOk, ReattachOk, OpeningsOk, LinkOk;
  }

  /** What a dispatched frame of the current attachment admits. */
  lemma BodyAdmits(p: Plane, q: nat, serial: nat, tag: nat, body: Body, now: nat)
    requires PlaneOk(p) && p.life.stream.Some? && tag == p.life.generation && !p.life.detached
    ensures Admitted(HandleBody(p, q, serial, tag, body, now).route.segments) == Admitted(p.route.segments)
      + if body.Output? && !Overflowing(p, body.payload) then [Item(serial, body.payload)] else []
    ensures FinishedAfter(p.route.segments, HandleBody(p, q, serial, tag, body, now).route.segments,
      body.SnapshotFinish? && p.route.hydration.Some? && p.route.hydration.value.readyReceived && !p.route.hydration.value.completed)
  {
    hide InputOk, QueuesOk, SerialOk, DetachOk, ReattachOk, OpeningsOk, SettleResult, Abandon, Pump, OutputOk, LinkOk,
         Admitted, FinishedAfter, SendDetachOnce, MintSubscription, Overflows;
    HydrationIsThere(p);
    SegmentsThere(p);
    if body.Output? && !p.route.hydration.value.completed { CounterDecides(p, body.payload); }
    if body.Output? && !Overflowing(p, body.payload) {
      AdmittedGrows(p.route.segments, Item(serial, body.payload));
      LastFlags(p.route.segments, Item(serial, body.payload));
    } else if body.SnapshotFinish? && !p.route.hydration.value.completed && p.route.hydration.value.readyReceived {
      FinishGrows(p.route.segments);
      LastFlags(p.route.segments, Item(serial, []));
    } else {
      NothingAdds(p.route.segments, HandleBody(p, q, serial, tag, body, now).route.segments);
    }
  }

  lemma LastFlags(segments: seq<Segment>, item: Item)
    requires segments != []
    ensures FinishedAfter(segments, AdmitToLast(segments, item), false)
    ensures FinishedAfter(segments, FinishLast(segments), true)
  {
  }

  /** Along any event, admitted output grows by exactly the payload whose frame passed both fences
      and fits the hydration buffer, and a segment finishes exactly on FINISH after READY. */
  lemma AdmissionExact(p: Plane, e: Event)
    requires PlaneOk(p)
    ensures Admitted(Step(p, e).route.segments) == Admitted(p.route.segments) + AdmittedBy(p, e)
    ensures FinishedAfter(p.route.segments, Step(p, e).route.segments, FinishesBy(p, e))
  {
    hide PlaneOk, Admitted, HandleArrival, StartInstall, ReaderDone, ReaderFailed, HydrationTimeout;
    if e.EvDispatch? {
      if Dispatches(p, e.queue) { DispatchAdmits(p, e.queue, e.now); }
    } else {
      OthersAdmitNothing(p, e);
      NothingAdds(p.route.segments, Step(p, e).route.segments);
    }
  }

  lemma DispatchAdmits(p: Plane, q: nat, now: nat)
    requires PlaneOk(p) && Dispatches(p, q)
    ensures Admitted(Dispatch(p, q, now).route.segments) == Admitted(p.route.segments) + AdmittedBy(p, EvDispatch(q, now))
    ensures FinishedAfter(p.route.segments, Dispatch(p, q, now).route.segments, FinishesBy(p, EvDispatch(q, now)))
  {
    hide PlaneOk, Admitted, HandleBody, Abandon;
    var queue := p.route.Queue(q);
    assert queue == QueueOf(p.route.queues, q);
    DispatchHead(p, q);
    var popped := p.(route := SetQueue(p.route, q, queue.(items := queue.items[1..])));
    var a := queue.items[0];
    if IsCurrent(p.life, a.tag) && a.event.Frame? && a.event.route == p.life.subscription
       && AdmitsGeneration(p.route, a.event.generation) && !a.event.body.Undecodable? {
      FenceMoved(popped, a.event.generation);
      BodyAdmits(popped.(route := popped.route.(routeGeneration := Some(a.event.generation))), q, a.serial, a.tag, a.event.body, now);
    }
  }

  // ---------------------------------------------------------------------------
  // Process exits.
  // ---------------------------------------------------------------------------

  /** The exit event e announces: one that arrives while the screen is live, or the one its FINISH releases. */
  function ExitedBy(p: Plane, e: Event): seq<int> {
    if !e.EvDispatch? || !Dispatches(p, e.queue) || p.route.hydration.None? then [] else
      var a, h := p.route.Queue(e.queue).items[0], p.route.hydration.value;
      if FinishesBy(p, e) then (if h.pendingExit.Some? then [h.pendingExit.value] else [])
      else if FencesPass(p, a) && a.event.body.ProcessExit? && h.completed then [a.event.body.code] else []
  }

  lemma InstallsAnnounceNothing(p: Plane, q: nat, hydration: nat)
    ensures StartInstall(p, q).route.exits == p.route.exits && HydrationTimeout(p, hydration).route.exits == p.route.exits
  {
    hide Abandon, SendDetachOnce, MintSubscription;
  }

  lemma ReadersAnnounceNothing(p: Plane, q: nat, progress: Progress)
    ensures ReaderDone(p, q, progress).route.exits == p.route.exits && ReaderFailed(p, q).route.exits == p.route.exits
  {
    hide Abandon, SendDetachOnce, MintSubscription;
  }

  lemma UsersAnnounceNothing(p: Plane, e: Event)
    ensures OnUser(p, e).route.exits == p.route.exits
  {
    hide Pump, AdmitInput, AdmitPaste, AdmitConfirmed, Abandon;
  }

  /** Attaching, loss, recovery and detach. */
  lemma LifecyclesAnnounceNothing(p: Plane, e: Event)
    ensures OnLifecycle(p, e).route.exits == p.route.exits
  {
    hide Abandon;
  }

  lemma OthersAnnounceNothing(p: Plane, e: Event)
    requires !e.EvDispatch?
    ensures Step(p, e).route.exits == p.route.exits
  {
    hide OnUser, OnLifecycle, ChainRun, ChainCatch, TerminalInput.SendDone, TerminalInput.SendFail, AbortDone,
         StartInstall, ReaderDone, ReaderFailed, HydrationTimeout;
    if e.User() {
      UsersAnnounceNothing(p, e);
    } else if !e.Chain() && !e.Delivery() {
      LifecyclesAnnounceNothing(p, e);
    } else {
      match e {
        case EvStartInstall(q) => InstallsAnnounceNothing(p, q, 0);
        case EvReaderDone(q, progress) => ReadersAnnounceNothing(p, q, progress);
        case EvReaderFailed(q) => ReadersAnnounceNothing(p, q, ReaderPage);
        case EvHydrationTimeout(h) => InstallsAnnounceNothing(p, 0, h);
        case _ =>
      }
    }
  }

  lemma BodyAnnounces(p: Plane, q: nat, serial: nat, tag: nat, body: Body, now: nat)
    requires p.route.hydration.Some? && p.route.hydration.value.generation == tag
    ensures var h := p.route.hydration.value;
      HandleBody(p, q, serial, tag, body, now).route.exits == p.route.exits
      + (if body.SnapshotFinish? && h.readyReceived && !h.completed && h.pendingExit.Some? then [h.pendingExit.value]
         else if body.ProcessExit? && h.completed then [body.code] else [])
  {
    hide SettleResult, Abandon, Pump, SendDetachOnce, MintSubscription, Overflows, AdmitToLast, FinishLast;
  }

  /** A process exit is announced exactly once the screen it ends is whole: when it arrives live, or by the
      FINISH that delivered everything before it. */
  lemma ExitsExact(p: Plane, e: Event)
    requires PlaneOk(p)
    ensures Step(p, e).route.exits == p.route.exits + ExitedBy(p, e)
  {
    hide PlaneOk, HandleArrival, StartInstall, ReaderDone, ReaderFailed, HydrationTimeout;
    if e.EvDispatch? {
      if Dispatches(p, e.queue) { DispatchAnnounces(p, e.queue, e.now); }
    } else {
      OthersAnnounceNothing(p, e);
    }
  }

  lemma DispatchAnnounces(p: Plane, q: nat, now: nat)
    requires PlaneOk(p) && Dispatches(p, q)
    ensures Dispatch(p, q, now).route.exits == p.route.exits + ExitedBy(p, EvDispatch(q, now))
  {
    hide PlaneOk, HandleBody, Abandon;
    var queue := p.route.Queue(q);
    assert queue == QueueOf(p.route.queues, q);
    DispatchHead(p, q);
    var popped := p.(route := SetQueue(p.route, q, queue.(items := queue.items[1..])));
    var a := queue.items[0];
    if IsCurrent(p.life, a.tag) && a.event.Frame? && a.event.route == p.life.subscription
       && AdmitsGeneration(p.route, a.event.generation) && !a.event.body.Undecodable? {
      HydrationIsThere(popped);
      BodyAnnounces(popped.(route := popped.route.(routeGeneration := Some(a.event.generation))), q, a.serial, a.tag, a.event.body, now);
    }
  }

  // ---------------------------------------------------------------------------
  // Faithful delivery.
  // ---------------------------------------------------------------------------

  ghost predicate InArrivalOrder(items: seq<Item>) {
    forall j, k :: 0 <= j < k < |items| ==> items[j].serial < items[k].serial
  }

  lemma OrderSplits(a: seq<Item>, b: seq<Item>)
    requires InArrivalOrder(a + b)
    ensures InArrivalOrder(a) && InArrivalOrder(b)
    ensures forall x, y :: x in a && y in b ==> x.serial < y.serial
  {
    assert forall j :: 0 <= j < |a| ==> a[j] == (a + b)[j];
    assert forall k :: 0 <= k < |b| ==> b[k] == (a + b)[|a| + k];
  }

  lemma OrderJoins(a: seq<Item>, b: seq<Item>)
    requires InArrivalOrder(a) && InArrivalOrder(b)
    requires forall x, y :: x in a && y in b ==> x.serial < y.serial
    ensures InArrivalOrder(a + b)
  {
    forall j, k | 0 <= j < k < |a + b| ensures (a + b)[j].serial < (a + b)[k].serial {
      if j < |a| <= k { assert a[j] in a && b[k - |a|] in b; }
    }
  }

  /** What is finished was admitted, in the same order. */
  lemma {:induction false} FinishedInOrder(segments: seq<Segment>)
    requires InArrivalOrder(Admitted(segments))
    ensures InArrivalOrder(Finished(segments))
    ensures forall x :: x in Finished(segments) ==> x in Admitted(segments)
  {
    if segments != [] {
      var before, last := segments[..|segments| - 1], segments[|segments| - 1];
      OrderSplits(Admitted(before), last.admitted);
      FinishedInOrder(before);
      if last.finished { OrderJoins(Finished(before), last.admitted); }
    }
  }

  /** In every reachable state the listeners have received exactly the admitted payloads of the
      segments that finished, each once, in arrival order, byte for byte as they arrived. */
  lemma OutputFaithful(fixedSubscription: bool, events: seq<Event>)
    ensures var route := Run(Initial(fixedSubscription), events).route;
      && route.delivered == Finished(route.segments)
      && InArrivalOrder(route.delivered)
      && forall x :: x in route.delivered ==> CarriedBy(x, route.arrivals)
  {
    hide InputOk;
    RunOk(fixedSubscription, events);
    FinishedInOrder(Run(Initial(fixedSubscription), events).route.segments);
  }

  /** A payload of segment n was admitted. */
  lemma {:induction false} SegmentAdmitted(segments: seq<Segment>, n: nat, x: Item)
    requires n < |segments| && x in segments[n].admitted
    ensures x in Admitted(segments)
  {
    var before := segments[..|segments| - 1];
    if n < |before| { SegmentAdmitted(before, n, x); }
  }

  /** Admitted once: a payload of an unfinished segment is in no finished one. */
  lemma {:induction false} UnfinishedUndelivered(segments: seq<Segment>, n: nat, x: Item)
    requires InArrivalOrder(Admitted(segments))
    requires n < |segments| && !segments[n].finished && x in segments[n].admitted
    ensures x !in Finished(segments)
  {
    hide InArrivalOrder;
    var before, last := segments[..|segments| - 1], segments[|segments| - 1];
    OrderSplits(Admitted(before), last.admitted);
    FinishedInOrder(before);
    if n < |before| {
      UnfinishedUndelivered(before, n, x);
      SegmentAdmitted(before, n, x);
      assert x !in last.admitted;
    } else {
      assert x !in Finished(before);
    }
  }

  /** The segment ended: a newer one began, or its hydration is gone. */
  predicate Ended(route: Route, n: nat) {
    n + 1 < |route.segments| || (n + 1 == |route.segments| && route.hydration.None?)
  }

  /** A hydration that resync, recovery, loss or detach ended before FINISH never delivers any of
      its buffered bytes, however the run goes on. */
  lemma EndedHydrationDeliversNothing(fixedSubscription: bool, events: seq<Event>, more: seq<Event>, n: nat, x: Item)
    requires var route := Run(Initial(fixedSubscription), events).route;
      n < |route.segments| && Ended(route, n) && !route.segments[n].finished && x in route.segments[n].admitted
    ensures x !in Run(Run(Initial(fixedSubscription), events), more).route.delivered
  {
    hide InputOk;
    var p := Run(Initial(fixedSubscription), events);
    RunOk(fixedSubscription, events);
    RunLater(p, more);
    assert Run(p, more).route.segments[n] == p.route.segments[n];
    UnfinishedUndelivered(Run(p, more).route.segments, n, x);
  }

  // ---------------------------------------------------------------------------
  // Work of replaced queues and hydrations.
  // ---------------------------------------------------------------------------

  /** Only queue q itself moved. */
  ghost predicate OnlyQueue(p: Plane, after: Plane, q: nat) {
    && after == p.(route := p.route.(queues := after.route.queues))
    && forall r: nat :: r != q ==> after.route.Queue(r) == p.route.Queue(r)
  }

  lemma QueueAlone(p: Plane, q: nat, queue: EventQueue)
    ensures OnlyQueue(p, p.(route := SetQueue(p.route, q, queue)), q)
  {
  }

  /** Once an attachment is reset, no continuation of its event queue has any effect outside it: not a
      frame still waiting, not an install, not a snapshot reader that answers or fails late. */
  lemma ReplacedQueueIsInert(fixedSubscription: bool, events: seq<Event>, q: nat, now: nat, progress: Progress)
    requires Run(Initial(fixedSubscription), events).route.queueId != q
    ensures var p := Run(Initial(fixedSubscription), events);
      && OnlyQueue(p, Dispatch(p, q, now), q) && OnlyQueue(p, StartInstall(p, q), q)
      && OnlyQueue(p, ReaderDone(p, q, progress), q) && OnlyQueue(p, ReaderFailed(p, q), q)
  {
    hide PlaneOk, QueueStale, OnlyQueue, Dispatch, StartInstall, ReaderDone, ReaderFailed;
    var p := Run(Initial(fixedSubscription), events);
    RunOk(fixedSubscription, events);
    StaleQueue(p, q);
    StaleSteps(p, q, now, progress);
  }

  /** Everything in a replaced queue belongs to an attachment that is gone. */
  predicate QueueStale(p: Plane, q: nat) {
    && (forall k :: 0 <= k < |p.route.Queue(q).items| ==> !IsCurrent(p.life, p.route.Queue(q).items[k].tag))
    && (p.route.Queue(q).install.Some? ==> !IsCurrent(p.life, p.route.Queue(q).install.value.generation))
  }

  lemma StaleQueue(p: Plane, q: nat)
    requires PlaneOk(p) && q != p.route.queueId
    ensures QueueStale(p, q)
  {
    hide InputOk, SerialOk, OutputOk, DetachOk, ReattachOk, OpeningsOk;
    assert p.route.Queue(q) == QueueOf(p.route.queues, q);
    assert QueueOk(QueueOf(p.route.queues, q), p.route.arrivals, p.life.generation, p.life.stream.Some?, false);
  }

  lemma StaleSteps(p: Plane, q: nat, now: nat, progress: Progress)
    requires QueueStale(p, q)
    ensures OnlyQueue(p, Dispatch(p, q, now), q) && OnlyQueue(p, StartInstall(p, q), q)
    ensures OnlyQueue(p, ReaderDone(p, q, progress), q) && OnlyQueue(p, ReaderFailed(p, q), q)
  {
    hide OnlyQueue, ReceiveFrame;
    var queue := p.route.Queue(q);
    QueueAlone(p, q, queue.(install := None));
    SameQueue(p, q);
    if queue.items != [] { QueueAlone(p, q, queue.(items := queue.items[1..])); }
  }

  lemma SameQueue(p: Plane, q: nat)
    ensures OnlyQueue(p, p, q)
  {
  }

  /** A reader result whose hydration was replaced within the attachment only frees its queue. */
  lemma ReplacedHydrationIgnoresReader(p: Plane, q: nat, progress: Progress)
    requires p.route.Queue(q).install.Some? && p.route.Queue(q).install.value.reading
    requires p.route.hydration.None? || p.route.hydration.value.id != p.route.Queue(q).install.value.hydration
    ensures OnlyQueue(p, ReaderDone(p, q, progress), q) && OnlyQueue(p, ReaderFailed(p, q), q)
    ensures ReaderDone(p, q, progress).route.Queue(q) == p.route.Queue(q).(install := None)
  {
  }
}
