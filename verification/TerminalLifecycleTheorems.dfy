/** Detach and re-attach, over every run: at most one Detach per attachment, at most one automatic
    re-attach per recovery, silence after a public detach; and when a recovery strands a stream. */
module TerminalLifecycleTheorems {
  import opened Wrappers
  import opened TerminalInput
  import opened TerminalInputProofs
  import opened TerminalPlane
  import opened TerminalPlaneProofs
  import opened TerminalHistory
  import opened TerminalOutputTheorems
  import opened TerminalEffects
  import opened TerminalLedgerEffects
  import opened TerminalRouteEffects

  /** In every reachable state all Detach requests name different attachments, all of them over, and the
      automatic re-attaches belong to different recovery epochs. */
  lemma DetachAndReattachOnce(fixedSubscription: bool, events: seq<Event>)
    ensures var life := Run(Initial(fixedSubscription), events).life;
      && (forall j, k :: 0 <= j < k < |life.detaches| ==> life.detaches[j].generation != life.detaches[k].generation)
      && (forall k :: 0 <= k < |life.detaches| ==> life.detaches[k].generation < life.generation)
      && (forall j, k :: 0 <= j < k < |life.reattaches| ==> life.reattaches[j] != life.reattaches[k])
  {
    hide InputOk, LinkOk, OpeningsOk, QueuesOk, SerialOk, OutputOk;
    RunOk(fixedSubscription, events);
  }

  /** After a public detach: no further attach, no further Detach, however the run goes on. */
  lemma DetachIsFinal(fixedSubscription: bool, events: seq<Event>, more: seq<Event>)
    requires Run(Initial(fixedSubscription), events).life.detached
    ensures var life := Run(Initial(fixedSubscription), events).life;
      var later := Run(Run(Initial(fixedSubscription), events), more).life;
      && later.detached && later.stream.None? && later.attach.None?
      && later.openings == life.openings && later.detaches == life.detaches && later.reattaches == life.reattaches
  {
    hide InputOk, OpeningsOk, QueuesOk, SerialOk, OutputOk, LaterInput, LaterRoute, Step;
    RunOk(fixedSubscription, events);
    RunLater(Run(Initial(fixedSubscription), events), more);
  }

  /** The once-flag of Detach always names a request that was made. */
  lemma FlagIsLogged(fixedSubscription: bool, events: seq<Event>)
    ensures var life := Run(Initial(fixedSubscription), events).life;
      life.detachSentFor.Some? ==> life.detachSentFor.value in life.detaches
  {
    hide PlaneOk, LaterInput, LaterRoute, Step;
    InitialOk(fixedSubscription);
    RunLater(Initial(fixedSubscription), events);
  }

  /** The ledger after every event of every run. */
  lemma LedgerExact(fixedSubscription: bool, events: seq<Event>, e: Event)
    ensures var p := Run(Initial(fixedSubscription), events); LedgerIs(p, e, Step(p, e)) && DetachesAre(p, e, Step(p, e))
  {
    hide PlaneOk, Step, Run, LedgerIs, DetachesAre;
    var p := Run(Initial(fixedSubscription), events);
    RunOk(fixedSubscription, events);
    FlagIsLogged(fixedSubscription, events);
    DetachAndReattachOnce(fixedSubscription, events);
    LedgerStep(p, e);
  }

  // ---------------------------------------------------------------------------
  // Which attachments a recovery pays for.
  // ---------------------------------------------------------------------------

  /** Event e tells that the Attach of attachment g left: the stream reports it, or the Hub answers it. */
  predicate TellsLeft(p: Plane, e: Event, g: nat) {
    || (e == EvAttachSent(g) && p.life.stream.Some? && p.life.stream.value.generation == g)
    || (Handled(p, e) == Some(AttachStateFrame(Attached)) && g == p.life.generation)
  }

  /** The attachments whose Attach left in a run. */
  predicate Left(fixedSubscription: bool, events: seq<Event>, g: nat)
    decreases |events|
  {
    events != [] &&
      (Left(fixedSubscription, events[..|events| - 1], g)
       || TellsLeft(Run(Initial(fixedSubscription), events[..|events| - 1]), events[|events| - 1], g))
  }

  /** The attachment the last loss left behind, if no recovery came since. */
  function LastLost(fixedSubscription: bool, events: seq<Event>): Option<Held>
    decreases |events|
  {
    if events == [] then None
    else
      var p, e := Run(Initial(fixedSubscription), events[..|events| - 1]), events[|events| - 1];
      if Loses(p.life, e) then Some(Held(p.life.subscription, p.life.generation))
      else if Recovers(p.life, e) then None
      else LastLost(fixedSubscription, events[..|events| - 1])
  }

  /** The state's flags against the attachments that left. */
  ghost predicate LeftIs(p: Plane, fixedSubscription: bool, events: seq<Event>) {
    && (forall g: nat :: Left(fixedSubscription, events, g) ==> g <= p.life.generation)
    && (AttachLeft(p) <==> p.life.stream.Some? && Left(fixedSubscription, events, p.life.generation))
    && (p.life.stream.None? ==> !Left(fixedSubscription, events, p.life.generation))
    && (p.life.lastAbandoned.Some? ==>
          var a := p.life.lastAbandoned.value;
          a.held.generation < p.life.generation && (a.attachSent <==> Left(fixedSubscription, events, a.held.generation)))
    && LastLost(fixedSubscription, events) == (if p.life.lastAbandoned.Some? then Some(p.life.lastAbandoned.value.held) else None)
  }

  /** An attachment that is not open has no epoch. */
  lemma OpenParts(p: Plane)
    requires PlaneOk(p)
    ensures AttachLeft(p) ==> p.life.stream.Some?
    ensures p.life.stream.Some? ==> p.life.stream.value.generation == p.life.generation
    ensures p.life.attach.Some? && p.life.attach.value.phase.Acquiring? ==> p.life.stream.None?
  {
    hide InputOk, QueuesOk, SerialOk, OutputOk, DetachOk, ReattachOk, OpeningsOk;
  }

  /** Only the open attachment can have its Attach told, and it stays open then. */
  lemma TellsOpen(p: Plane, e: Event, g: nat)
    requires PlaneOk(p) && TellsLeft(p, e, g)
    ensures g == p.life.generation && p.life.stream.Some?
    ensures !Loses(p.life, e) && !Resets(p, e) && !Opens(p, e) && !Attaches(p, e)
  {
    hide PlaneOk, EpochPasses, Overflowing;
    OpenParts(p);
    if e.EvDispatch? { DispatchParts(p, e); }
  }

  /** What an event does to the flags of the attachment that is open after it. */
  lemma FlagsMove(p: Plane, e: Event, q: Plane)
    requires PlaneOk(p) && PlaneOk(q) && AttachmentIs(p, e, q) && RouteIs(p, e, q)
    ensures TellsLeft(p, e, p.life.generation) ==> q.life.generation == p.life.generation && AttachLeft(q)
    ensures q.life.stream.Some? && !TellsLeft(p, e, p.life.generation) ==>
      q.life.generation == p.life.generation
      && (if p.life.stream.None? then !AttachLeft(q) else AttachLeft(q) <==> AttachLeft(p))
    ensures q.life.stream.None? ==> q.life.generation > p.life.generation || p.life.stream.None?
    ensures Loses(p.life, e) ==> q.life.generation > p.life.generation
    ensures q.life.generation >= p.life.generation
  {
    hide PlaneOk, Overflowing, Calls, GoesOn, LosesSnapshot, FailsRoute, HydrationAfter, SegmentsAfter;
    OpenParts(p);
    OpenParts(q);
    if TellsLeft(p, e, p.life.generation) { TellsOpen(p, e, p.life.generation); }
  }

  lemma LeftMore(fixedSubscription: bool, events: seq<Event>, e: Event)
    ensures forall g: nat :: Left(fixedSubscription, events + [e], g) <==>
      Left(fixedSubscription, events, g) || TellsLeft(Run(Initial(fixedSubscription), events), e, g)
    ensures var p := Run(Initial(fixedSubscription), events);
      LastLost(fixedSubscription, events + [e]) ==
        if Loses(p.life, e) then Some(Held(p.life.subscription, p.life.generation))
        else if Recovers(p.life, e) then None else LastLost(fixedSubscription, events)
  {
    hide Run, TellsLeft, Loses, Recovers;
    assert (events + [e])[..|events|] == events;
  }

  lemma LeftStep(p: Plane, e: Event, fixedSubscription: bool, events: seq<Event>)
    requires PlaneOk(p) && LeftIs(p, fixedSubscription, events) && p == Run(Initial(fixedSubscription), events)
    requires var q := Step(p, e); AttachmentIs(p, e, q) && RouteIs(p, e, q) && LedgerIs(p, e, q) && PlaneOk(q)
    ensures LeftIs(Step(p, e), fixedSubscription, events + [e])
  {
    hide PlaneOk, Step, Run, AttachmentIs, RouteIs, TellsLeft, Loses, Recovers, AttachLeft, Left, LastLost;
    var q := Step(p, e);
    LeftMore(fixedSubscription, events, e);
    OpenParts(p);
    OpenParts(q);
    FlagsMove(p, e, q);
    forall g: nat | TellsLeft(p, e, g) ensures g == p.life.generation { TellsOpen(p, e, g); }
  }

  lemma {:induction false} LeftOverRuns(fixedSubscription: bool, events: seq<Event>)
    ensures LeftIs(Run(Initial(fixedSubscription), events), fixedSubscription, events)
    decreases |events|
  {
    hide PlaneOk, Step, AttachmentIs, RouteIs, LedgerIs, DetachesAre, QueuesAre, LeftIs;
    if events == [] {
      NothingLeft(fixedSubscription);
    } else {
      var front, e := events[..|events| - 1], events[|events| - 1];
      var p := Run(Initial(fixedSubscription), front);
      LeftOverRuns(fixedSubscription, front);
      RunOk(fixedSubscription, front);
      RunOk(fixedSubscription, events);
      AttachmentExact(p, e);
      RouteExact(p, e);
      LedgerExact(fixedSubscription, front, e);
      LeftStep(p, e, fixedSubscription, front);
      assert front + [e] == events;
    }
  }

  lemma NothingLeft(fixedSubscription: bool)
    ensures LeftIs(Run(Initial(fixedSubscription), []), fixedSubscription, [])
  {
  }

  /** A recovery that moves to a fresh subscription id sends one Detach for the attachment it supersedes exactly
      when that attachment's Attach had left; one that never left gets none. */
  lemma RecoveryDetachesExactly(fixedSubscription: bool, events: seq<Event>)
    requires Recovers(Run(Initial(fixedSubscription), events).life, EvTransportRecovered)
    ensures var p := Run(Initial(fixedSubscription), events);
      var lost := LastLost(fixedSubscription, events);
      Step(p, EvTransportRecovered).life.detaches == p.life.detaches
        + if !fixedSubscription && lost.Some? && Left(fixedSubscription, events, lost.value.generation) then [lost.value] else []
  {
    hide PlaneOk, Step, Run, Left, LastLost, LedgerIs, Resets;
    var p := Run(Initial(fixedSubscription), events);
    LeftOverRuns(fixedSubscription, events);
    LedgerExact(fixedSubscription, events, EvTransportRecovered);
    FixedStays(fixedSubscription, events);
    RecoveryOnly(p);
  }

  lemma RecoveryOnly(p: Plane)
    ensures !LosesSnapshot(p, EvTransportRecovered) && !FailsRoute(p, EvTransportRecovered)
    ensures !LastLeaves(p.life, EvTransportRecovered) && !Detaches(p.life, EvTransportRecovered)
  {
  }

  lemma FixedStays(fixedSubscription: bool, events: seq<Event>)
    ensures Run(Initial(fixedSubscription), events).life.fixedSubscription == fixedSubscription
  {
    hide PlaneOk, LaterInput, LaterRoute, Step;
    InitialOk(fixedSubscription);
    RunLater(Initial(fixedSubscription), events);
  }

  // ---------------------------------------------------------------------------
  // Fresh ids.
  // ---------------------------------------------------------------------------

  /** Every id a stream was ever opened under was made before the next one. */
  ghost predicate IdsMade(life: Life) {
    life.subscription < life.minted && forall k :: 0 <= k < |life.openings| ==> life.openings[k].subscription < life.minted
  }

  lemma {:induction false} IdsOverRuns(fixedSubscription: bool, events: seq<Event>)
    ensures IdsMade(Run(Initial(fixedSubscription), events).life)
    decreases |events|
  {
    hide PlaneOk, Step, Resets, Attaches, Mints, Opens;
    if events != [] {
      var front := events[..|events| - 1];
      IdsOverRuns(fixedSubscription, front);
      RunOk(fixedSubscription, front);
      AttachmentExact(Run(Initial(fixedSubscription), front), events[|events| - 1]);
    }
  }

  /** A lost snapshot and a recovery move to an id under which no stream of the run was ever opened, and the new
      attach goes on under it. */
  lemma FreshIds(fixedSubscription: bool, events: seq<Event>, e: Event)
    requires Mints(Run(Initial(fixedSubscription), events), e)
    ensures var p := Run(Initial(fixedSubscription), events);
      var id := Step(p, e).life.subscription;
      && id != p.life.subscription
      && (forall k :: 0 <= k < |p.life.openings| ==> p.life.openings[k].subscription != id)
      && (Reattaches(p, e) && p.life.listeners != {} ==>
            Step(p, e).life.attach == Some(AttachTask(p.life.generation + 2, Acquiring)))
  {
    hide PlaneOk, Step, Run, LosesSnapshot, FailsRoute, Calls;
    IdsOverRuns(fixedSubscription, events);
    RunOk(fixedSubscription, events);
    AttachmentExact(Run(Initial(fixedSubscription), events), e);
    if Reattaches(Run(Initial(fixedSubscription), events), e) { SnapshotEvent(Run(Initial(fixedSubscription), events), e); }
  }

  lemma SnapshotEvent(p: Plane, e: Event)
    requires LosesSnapshot(p, e)
    ensures e.Delivery() && ListenersAfter(p.life, e) == p.life.listeners
  {
  }

  // ---------------------------------------------------------------------------
  // A recovery that strands a stream.
  // ---------------------------------------------------------------------------

  /** The open stream was opened under the id whose frames are accepted. */
  predicate IdsAgree(p: Plane) {
    p.life.stream.Some? ==> p.life.stream.value.subscription == p.life.subscription
  }

  /** Recovery mints a new id while a stream is open: input queued after the loss had opened one. */
  predicate Strands(p: Plane, e: Event) {
    Recovers(p.life, e) && !p.life.fixedSubscription && p.life.stream.Some?
  }

  lemma CloseAgrees(p: Plane, hydration: nat)
    requires IdsAgree(p)
    ensures IdsAgree(Reset(p)) && IdsAgree(CloseStream(p)) && IdsAgree(RecoverRoute(p, hydration))
  {
    hide Abandon;
  }

  lemma InstallAgrees(p: Plane, q: nat, progress: Progress, hydration: nat)
    requires IdsAgree(p)
    ensures IdsAgree(StartInstall(p, q)) && IdsAgree(ReaderDone(p, q, progress))
    ensures IdsAgree(ReaderFailed(p, q)) && IdsAgree(HydrationTimeout(p, hydration))
  {
    hide Reset, CloseStream, RecoverRoute;
    var ended := EndInstall(p, q);
    var install := p.route.Queue(q).install;
    CloseAgrees(ended, if install.Some? then install.value.hydration else 0);
    if p.route.hydration.Some? {
      CloseAgrees(p.(route := p.route.(hydration := Some(p.route.hydration.value.(armed := false)))), hydration);
    }
  }

  lemma BodyAgrees(p: Plane, q: nat, serial: nat, tag: nat, body: Body, now: nat)
    requires IdsAgree(p)
    ensures IdsAgree(HandleBody(p, q, serial, tag, body, now))
  {
    hide Reset, CloseStream, RecoverRoute, SettleResult, Pump, AdmitToLast, FinishLast;
    var p' := p.(route := EnsureHydration(p.route, tag));
    CloseAgrees(p', 0);
    CloseAgrees(p, if p.route.hydration.Some? then p.route.hydration.value.id else 0);
  }

  lemma DispatchAgrees(p: Plane, q: nat, now: nat)
    requires IdsAgree(p)
    ensures IdsAgree(Dispatch(p, q, now))
  {
    hide Reset, CloseStream, HandleBody;
    if Dispatches(p, q) {
      var queue := p.route.Queue(q);
      var popped := p.(route := SetQueue(p.route, q, queue.(items := queue.items[1..])));
      var a := queue.items[0];
      CloseAgrees(popped, 0);
      if a.event.Frame? {
        BodyAgrees(popped.(route := popped.route.(routeGeneration := Some(a.event.generation))), q, a.serial, a.tag, a.event.body, now);
      }
    }
  }

  lemma UsersAgree(p: Plane, e: Event)
    requires e.User() && IdsAgree(p)
    ensures IdsAgree(OnUser(p, e))
  {
    hide Pump, AdmitInput, AdmitPaste, AdmitConfirmed, Abandon;
  }

  /** The stream's id and the accepted id stay the same along every event but one: they part exactly
      when a recovery mints an id while a stream is open. */
  lemma IdsPartExactly(p: Plane, e: Event)
    requires PlaneOk(p) && IdsAgree(p)
    ensures IdsAgree(Step(p, e)) <==> !Strands(p, e)
  {
    hide InputOk, OpeningsOk, QueuesOk, SerialOk, OutputOk, DetachOk, ReattachOk, IdsAgree, OnUser, OnChain, OnDelivery, OnLifecycle;
    if e.User() {
      UsersAgree(p, e);
    } else if e.Chain() {
      ChainAgrees(p, e);
    } else if e.Delivery() {
      DeliveryAgrees(p, e);
    } else {
      LifecycleAgrees(p, e);
    }
  }

  lemma AttachAgrees(p: Plane, g: nat, reserved: Option<nat>, tag: nat, event: StreamEvent)
    requires IdsAgree(p)
    ensures IdsAgree(AttachResume(p, g)) && IdsAgree(AttachReady(p, g, reserved)) && IdsAgree(AttachRejected(p, g))
    ensures IdsAgree(AttachCleared(p, g)) && IdsAgree(MarkAttachSent(p, g)) && IdsAgree(Arrive(p, tag, event))
  {
  }

  lemma InputAgrees(p: Plane, input: Input)
    requires IdsAgree(p)
    ensures IdsAgree(p.(input := input))
  {
  }

  lemma LossAgrees(p: Plane)
    requires IdsAgree(p)
    ensures IdsAgree(TransportLost(p)) && IdsAgree(RecoveryContinues(p)) && IdsAgree(DetachPlane(p))
  {
    hide Abandon;
  }

  lemma ChainAgrees(p: Plane, e: Event)
    requires IdsAgree(p)
    ensures IdsAgree(OnChain(p, e))
  {
    hide ChainRun, ChainCatch, TerminalInput.SendDone, TerminalInput.SendFail, AbortDone, IdsAgree;
    InputAgrees(p, OnChain(p, e).input);
  }

  lemma DeliveryAgrees(p: Plane, e: Event)
    requires IdsAgree(p) && e.Delivery()
    ensures IdsAgree(OnDelivery(p, e))
  {
    hide Arrive, Dispatch, StartInstall, ReaderDone, ReaderFailed, HydrationTimeout, IdsAgree;
    match e {
      case EvArrive(tag, event) => AttachAgrees(p, 0, None, tag, event);
      case EvDispatch(q, now) => DispatchAgrees(p, q, now);
      case EvStartInstall(q) => InstallAgrees(p, q, ReaderPage, 0);
      case EvReaderDone(q, progress) => InstallAgrees(p, q, progress, 0);
      case EvReaderFailed(q) => InstallAgrees(p, q, ReaderPage, 0);
      case EvHydrationTimeout(h) => InstallAgrees(p, 0, ReaderPage, h);
    }
  }

  lemma LifecycleAgrees(p: Plane, e: Event)
    requires LinkOk(p.life, p.route) && IdsAgree(p) && !e.User() && !e.Chain() && !e.Delivery()
    ensures IdsAgree(OnLifecycle(p, e)) <==> !Strands(p, e)
  {
    hide TransportRecovered, TransportLost, RecoveryContinues, DetachPlane, AttachResume, AttachReady, AttachRejected,
         AttachCleared, MarkAttachSent, LinkOk, IdsAgree;
    match e {
      case EvTransportRecovered => RecoveryParts(p);
      case EvAttachReady(g, reserved) => AttachAgrees(p, g, reserved, 0, Closed(0, false));
      case EvAttachResume(g) => AttachAgrees(p, g, None, 0, Closed(0, false));
      case EvAttachSent(g) => AttachAgrees(p, g, None, 0, Closed(0, false));
      case EvAttachRejected(g) => AttachAgrees(p, g, None, 0, Closed(0, false));
      case EvAttachCleared(g) => AttachAgrees(p, g, None, 0, Closed(0, false));
      case _ => LossAgrees(p);
    }
  }

  lemma RecoveryParts(p: Plane)
    requires LinkOk(p.life, p.route) && IdsAgree(p)
    ensures IdsAgree(TransportRecovered(p)) <==> !Strands(p, EvTransportRecovered)
  {
  }

  /** A stranded stream is deaf: what it delivers under its own id is dropped, whatever it carries. */
  lemma StrandedStreamIsDeaf(p: Plane, q: nat, now: nat)
    requires !IdsAgree(p) && Dispatches(p, q)
    requires var a := p.route.Queue(q).items[0]; a.event.Frame? && a.event.route == p.life.stream.value.subscription
    ensures OnlyQueue(p, Dispatch(p, q, now), q)
  {
    QueueAlone(p, q, p.route.Queue(q).(items := p.route.Queue(q).items[1..]));
  }

  // ---------------------------------------------------------------------------
  // Such a run.
  // ---------------------------------------------------------------------------

  const BEFORE_LOSS: seq<Event> := [EvSubscribe(0), EvAttachResume(1), EvTransportLost]
  const AFTER_LOSS: seq<Event> := [EvSendInput(Focus(true), 1), EvAttachResume(3), EvTransportRecovered]

  const ABANDONED := Some(Abandoned(Held(0, 1), false))

  function LifeWhen(lost: bool, generation: nat, stream: Option<Stream>, attach: Option<AttachTask>, openings: seq<Held>): Life {
    Life({0}, false, lost, generation, false, 0, 1, stream, attach, 0, None, if lost then ABANDONED else None, 0, 0, openings, [], [])
  }

  lemma OpensFirst()
    ensures var p := Step(Step(Initial(false), EvSubscribe(0)), EvAttachResume(1));
      && p.life == LifeWhen(false, 1, Some(Stream(1, 0, false)), Some(AttachTask(1, Opening)), [Held(0, 1)])
      && !p.route.attached && p.route.hydration.Some? && p.route.hydration.value.generation == 1
  {
  }

  lemma LosesFirst()
    ensures Run(Initial(false), BEFORE_LOSS).life == LifeWhen(true, 2, None, None, [Held(0, 1)])
    ensures Admits(Run(Initial(false), BEFORE_LOSS).input, Focus(true))
  {
    hide Run;
    RunThree(Initial(false), EvSubscribe(0), EvAttachResume(1), EvTransportLost);
    OpensFirst();
    LosesOpen(Step(Step(Initial(false), EvSubscribe(0)), EvAttachResume(1)));
  }

  lemma LosesOpen(p: Plane)
    requires p.life == LifeWhen(false, 1, Some(Stream(1, 0, false)), Some(AttachTask(1, Opening)), [Held(0, 1)])
    requires !p.route.attached && p.route.hydration.Some? && p.route.hydration.value.generation == 1
    ensures Step(p, EvTransportLost).life == LifeWhen(true, 2, None, None, [Held(0, 1)])
    ensures Admits(Step(p, EvTransportLost).input, Focus(true))
  {
    hide Abandon;
    EmptiesQueue(p.input, 1);
  }

  lemma EmptiesQueue(i: Input, g: nat)
    ensures Admits(Abandon(i, g), Focus(true))
  {
  }

  lemma TypedWhileLost(p: Plane)
    requires p.life == LifeWhen(true, 2, None, None, [Held(0, 1)])
    requires Admits(p.input, Focus(true))
    ensures Step(p, EvSendInput(Focus(true), 1)).life == LifeWhen(true, 3, None, Some(AttachTask(3, Acquiring)), [Held(0, 1)])
  {
    hide Pump, AdmitInput;
  }

  lemma OpenedWhileLost(p: Plane)
    requires p.life == LifeWhen(true, 3, None, Some(AttachTask(3, Acquiring)), [Held(0, 1)])
    ensures var q := Step(Step(p, EvAttachResume(3)), EvTransportRecovered).life;
      q.stream == Some(Stream(3, 0, false)) && q.subscription == 1 && !q.transportLost
  {
  }

  /** Typing between the loss and the recovery opens a stream under the old id, and the recovery strands it. */
  lemma RecoveryStrandsStream()
    ensures var p := Run(Initial(false), BEFORE_LOSS + AFTER_LOSS);
      p.life.stream.Some? && !p.life.transportLost && !IdsAgree(p)
  {
    hide Step, Run;
    var p := Run(Initial(false), BEFORE_LOSS);
    LosesFirst();
    RunAppend(Initial(false), BEFORE_LOSS, AFTER_LOSS);
    RunThree(p, EvSendInput(Focus(true), 1), EvAttachResume(3), EvTransportRecovered);
    TypedWhileLost(p);
    OpenedWhileLost(Step(p, EvSendInput(Focus(true), 1)));
  }
}
