/** The ledger of an attachment's life: losses, recoveries, automatic re-attaches and the Detach requests the Hub
    is sent, event by event; and, over every run, that a recovery pays for exactly the attachments whose Attach
    had left. */
module TerminalLedgerEffects {
  import opened Wrappers
  import opened TerminalInput
  import opened TerminalInputProofs
  import opened TerminalPlane
  import opened TerminalPlaneProofs
  import opened TerminalHistory
  import opened TerminalOutputTheorems
  import opened TerminalEffects

  // ---------------------------------------------------------------------------
  // What becomes of each entry.
  // ---------------------------------------------------------------------------

  /** The Attach of the present attachment left, or the Hub answered it. */
  predicate AttachLeft(p: Plane) {
    p.route.acceptedEpoch.Some? || (p.life.stream.Some? && p.life.stream.value.attachSent)
  }

  /** The attachment a loss leaves behind, until the next recovery. */
  function AbandonedAfter(p: Plane, e: Event): Option<Abandoned> {
    if Loses(p.life, e) then Some(Abandoned(Held(p.life.subscription, p.life.generation), AttachLeft(p)))
    else if Recovers(p.life, e) then None
    else p.life.lastAbandoned
  }

  /** A recovery under a fresh id first sends the Detach of an attachment whose Attach had left. */
  predicate Owes(p: Plane, e: Event) {
    && Recovers(p.life, e) && !p.life.fixedSubscription
    && p.life.lastAbandoned.Some? && p.life.lastAbandoned.value.attachSent
  }

  /** An open stream is closed by this side, or by its adapter. */
  predicate Closes(p: Plane, e: Event) {
    p.life.stream.Some? && (LosesSnapshot(p, e) || FailsRoute(p, e) || LastLeaves(p.life, e))
  }

  /** The Detach requests event e sends. */
  function DetachedBy(p: Plane, e: Event): seq<Held> {
    if Owes(p, e) then [p.life.lastAbandoned.value.held]
    else if Closes(p, e) then [Held(p.life.subscription, p.life.generation)]
    else if Detaches(p.life, e) && !Named(p.life) then [Held(p.life.subscription, p.life.generation)]
    else []
  }

  /** The last Detach since a stream was opened named this very subscription id. */
  predicate Named(life: Life) {
    life.detachSentFor.Some? && life.detachSentFor.value.subscription == life.subscription
  }

  function DetachSentAfter(p: Plane, e: Event): Option<Held> {
    if DetachedBy(p, e) != [] then Some(DetachedBy(p, e)[0])
    else if Opens(p, e) then None
    else p.life.detachSentFor
  }

  function ContinuationsAfter(p: Plane, e: Event): nat {
    if Owes(p, e) then p.life.continuations + 1
    else if e.EvRecoveryContinues? && p.life.continuations > 0 then p.life.continuations - 1
    else p.life.continuations
  }

  ghost predicate LedgerIs(p: Plane, e: Event, q: Plane) {
    && q.life.detached == (p.life.detached || e.EvDetach?)
    && q.life.transportLost == (Loses(p.life, e) || (p.life.transportLost && !Recovers(p.life, e) && !Detaches(p.life, e)))
    && q.life.recoveryEpoch == p.life.recoveryEpoch + (if Recovers(p.life, e) then 1 else 0)
    && q.life.snapshotRecoveries ==
       (if Recovers(p.life, e) then 0 else p.life.snapshotRecoveries + if Reattaches(p, e) then 1 else 0)
    && q.life.reattaches == p.life.reattaches + (if Reattaches(p, e) then [p.life.recoveryEpoch] else [])
    && q.life.lastAbandoned == AbandonedAfter(p, e)
    && q.life.continuations == ContinuationsAfter(p, e)
  }

  ghost predicate DetachesAre(p: Plane, e: Event, q: Plane) {
    q.life.detaches == p.life.detaches + DetachedBy(p, e) && q.life.detachSentFor == DetachSentAfter(p, e)
  }

  // ---------------------------------------------------------------------------
  // Kind by kind.
  // ---------------------------------------------------------------------------

  /** Everything in the ledger stays, but for requests and an automatic re-attach. */
  ghost predicate Entered(l: Life, m: Life, again: bool, sent: seq<Held>) {
    && m.detached == l.detached && m.transportLost == l.transportLost && m.recoveryEpoch == l.recoveryEpoch
    && m.lastAbandoned == l.lastAbandoned && m.continuations == l.continuations
    && m.snapshotRecoveries == l.snapshotRecoveries + (if again then 1 else 0)
    && m.reattaches == l.reattaches + (if again then [l.recoveryEpoch] else [])
    && m.detaches == l.detaches + sent
    && m.detachSentFor == (if sent != [] then Some(sent[0]) else l.detachSentFor)
  }

  /** A Detach named since a stream was opened is never of the attachment that is open. */
  ghost predicate FlagOk(life: Life) {
    && (life.detachSentFor.Some? ==> life.detachSentFor.value in life.detaches)
    && (forall k :: 0 <= k < |life.detaches| ==> life.detaches[k].generation < life.generation)
  }

  predicate HoldsPresent(p: Plane) {
    HeldNow(p.life, p.route) == Held(p.life.subscription, p.life.generation) && (p.life.stream.Some? ==> !p.life.detached)
  }

  lemma PresentHeld(p: Plane)
    requires PlaneOk(p)
    ensures HoldsPresent(p) && (p.route.attached <==> p.route.acceptedEpoch.Some?)
    ensures p.route.hydration.Some? ==> p.life.stream.Some?
  {
    hide InputOk, QueuesOk, SerialOk, OutputOk, DetachOk, ReattachOk, OpeningsOk;
  }

  lemma ClosingEnters(p: Plane)
    requires HoldsPresent(p) && FlagOk(p.life)
    ensures Entered(p.life, CloseStream(p).life, false, if p.life.stream.Some? then [Held(p.life.subscription, p.life.generation)] else [])
    ensures Entered(p.life, Reset(p).life, false, [])
    ensures Entered(p.life, EnsureAttached(p).life, false, [])
  {
    hide Abandon;
  }

  lemma RecoverEnters(p: Plane, hydration: nat)
    requires HoldsPresent(p) && FlagOk(p.life) && p.life.stream.Some?
    requires p.route.hydration.Some? && p.route.hydration.value.id == hydration
    ensures var again := p.life.snapshotRecoveries == 0 && !p.life.fixedSubscription;
      Entered(p.life, RecoverRoute(p, hydration).life, again, [Held(p.life.subscription, p.life.generation)])
  {
    hide Abandon;
  }

  /** Where nothing is lost, recovered, detached or opened, that is the law. */
  lemma EnteredIs(p: Plane, e: Event, q: Plane)
    requires Entered(p.life, q.life, Reattaches(p, e), DetachedBy(p, e))
    requires !Loses(p.life, e) && !e.EvTransportRecovered? && !e.EvRecoveryContinues? && !e.EvDetach? && !e.EvAttachResume?
    ensures LedgerIs(p, e, q) && DetachesAre(p, e, q)
  {
    hide Reattaches, Closes;
  }

  lemma EnteredSelf(p: Plane)
    ensures Entered(p.life, p.life, false, [])
  {
  }

  lemma UserLedger(p: Plane, e: Event)
    requires PlaneOk(p) && FlagOk(p.life) && e.User()
    ensures LedgerIs(p, e, OnUser(p, e)) && DetachesAre(p, e, OnUser(p, e))
  {
    hide PlaneOk, FlagOk, CloseStream, LedgerIs, DetachesAre, OnUser, Entered, HoldsPresent, Reattaches, DetachedBy, Calls;
    NoUserRequests(p, e);
    if LastLeaves(p.life, e) {
      LeavingEnters(p, e);
    } else {
      UserEnters(p, e);
    }
    EnteredIs(p, e, OnUser(p, e));
  }

  lemma NoUserRequests(p: Plane, e: Event)
    requires e.User()
    ensures !Reattaches(p, e)
    ensures DetachedBy(p, e) ==
      if LastLeaves(p.life, e) && p.life.stream.Some? then [Held(p.life.subscription, p.life.generation)] else []
  {
  }

  lemma LeavingEnters(p: Plane, e: Event)
    requires PlaneOk(p) && FlagOk(p.life) && LastLeaves(p.life, e)
    ensures Entered(p.life, OnUser(p, e).life, false,
                    if p.life.stream.Some? then [Held(p.life.subscription, p.life.generation)] else [])
  {
    hide PlaneOk, CloseStream;
    PresentHeld(p);
    ClosingEnters(p.(life := p.life.(listeners := p.life.listeners - {e.listener})));
  }

  lemma UserEnters(p: Plane, e: Event)
    requires e.User() && !LastLeaves(p.life, e)
    ensures Entered(p.life, OnUser(p, e).life, false, [])
  {
    hide EnsureAttached, CloseStream, Entered, CalledWith, Calls;
    EnteredSelf(p);
    if Calling(e) {
      hide OnUser;
      CallParts(p, e);
      EnsureEnters(CalledWith(p, e));
    } else {
      ListenersEnter(p, e);
    }
  }

  lemma EnsureEnters(p: Plane)
    ensures Entered(p.life, EnsureAttached(p).life, false, [])
  {
  }

  lemma ListenersEnter(p: Plane, e: Event)
    requires (e.EvSubscribe? || e.EvUnsubscribe? || e.EvBindReader?) && !LastLeaves(p.life, e)
    ensures Entered(p.life, OnUser(p, e).life, false, [])
  {
    hide CloseStream;
  }

  lemma ChainLedger(p: Plane, e: Event)
    requires e.Chain()
    ensures LedgerIs(p, e, OnChain(p, e)) && DetachesAre(p, e, OnChain(p, e))
  {
    hide ChainRun, TerminalInput.SendDone, TerminalInput.SendFail, AbortDone, ChainCatch;
  }

  lemma AttachParts(p: Plane, e: Event)
    requires Progressing(e)
    ensures !Reattaches(p, e) && DetachedBy(p, e) == [] && !Loses(p.life, e) && !Recovers(p.life, e) && !Detaches(p.life, e)
  {
  }

  lemma AttachLedger(p: Plane, e: Event)
    requires PlaneOk(p) && Progressing(e)
    ensures LedgerIs(p, e, OnLifecycle(p, e)) && DetachesAre(p, e, OnLifecycle(p, e))
  {
    hide PlaneOk, Reattaches, DetachedBy, Loses, Recovers, Detaches, EnsureHydration;
    AttachParts(p, e);
  }

  lemma LossParts(p: Plane, e: Event)
    requires e.EvTransportLost? || e.EvRouteChannelClosed? || e.EvRecoveryContinues?
    ensures !Reattaches(p, e) && DetachedBy(p, e) == [] && !Opens(p, e) && !Recovers(p.life, e) && !Detaches(p.life, e)
  {
  }

  lemma LossLedger(p: Plane, e: Event)
    requires PlaneOk(p) && (e.EvTransportLost? || e.EvRouteChannelClosed? || e.EvRecoveryContinues?)
    ensures LedgerIs(p, e, OnLifecycle(p, e)) && DetachesAre(p, e, OnLifecycle(p, e))
  {
    hide PlaneOk, Abandon, Reattaches, DetachedBy, Opens;
    PresentHeld(p);
    LossParts(p, e);
  }

  lemma DetachLedger(p: Plane, e: Event)
    requires PlaneOk(p) && FlagOk(p.life) && e.EvDetach?
    ensures LedgerIs(p, e, OnLifecycle(p, e)) && DetachesAre(p, e, OnLifecycle(p, e))
  {
    hide PlaneOk, Abandon;
    PresentHeld(p);
  }

  lemma RecoveryLedger(p: Plane, e: Event)
    requires PlaneOk(p) && FlagOk(p.life) && e.EvTransportRecovered?
    ensures LedgerIs(p, e, OnLifecycle(p, e)) && DetachesAre(p, e, OnLifecycle(p, e))
  {
    hide PlaneOk;
    if Recovers(p.life, e) && p.life.lastAbandoned.Some? { DebtIs(p); }
  }

  /** The attachment a recovery owes was not named yet. */
  lemma DebtIs(p: Plane)
    requires PlaneOk(p) && FlagOk(p.life) && !p.life.detached && p.life.lastAbandoned.Some?
    ensures !DetachSent(p.life, p.life.lastAbandoned.value.held)
  {
    hide InputOk, QueuesOk, SerialOk, OutputOk, ReattachOk, OpeningsOk, LinkOk;
  }

  lemma LifecycleLedger(p: Plane, e: Event)
    requires PlaneOk(p) && FlagOk(p.life) && !e.User() && !e.Chain() && !e.Delivery()
    ensures LedgerIs(p, e, OnLifecycle(p, e)) && DetachesAre(p, e, OnLifecycle(p, e))
  {
    hide PlaneOk, LedgerIs, DetachesAre, OnLifecycle, FlagOk;
    match e {
      case EvTransportRecovered => RecoveryLedger(p, e);
      case EvDetach => DetachLedger(p, e);
      case EvTransportLost => LossLedger(p, e);
      case EvRouteChannelClosed(_) => LossLedger(p, e);
      case EvRecoveryContinues => LossLedger(p, e);
      case _ => AttachLedger(p, e);
    }
  }

  // ---------------------------------------------------------------------------
  // Deliveries.
  // ---------------------------------------------------------------------------

  lemma EnteredFrom(p: Plane, via: Plane, q: Plane, again: bool, sent: seq<Held>)
    requires via.life == p.life && Entered(via.life, q.life, again, sent)
    ensures Entered(p.life, q.life, again, sent)
  {
  }

  lemma ReadingLedger(p: Plane, e: Event)
    requires PlaneOk(p) && FlagOk(p.life) && Reading(e)
    ensures LedgerIs(p, e, OnDelivery(p, e)) && DetachesAre(p, e, OnDelivery(p, e))
  {
    hide PlaneOk, CloseStream, RecoverRoute, Entered, LedgerIs, DetachesAre, LosesSnapshot, FailsRoute, OnDelivery, FlagOk, HoldsPresent;
    var q, ended := OnDelivery(p, e), EndInstall(p, e.queue);
    PresentHeld(p);
    EndedHolds(p, e.queue);
    ReadingParts(p, e);
    if LosesSnapshot(p, e) {
      RecoverEnters(ended, p.route.hydration.value.id);
    } else if FailsRoute(p, e) {
      InstallFails(p, e);
      ClosingEnters(ended);
    } else {
      InstallStays(p, e);
      EnteredSelf(p);
    }
    EnteredIs(p, e, q);
  }

  lemma EndedHolds(p: Plane, q: nat)
    requires HoldsPresent(p)
    ensures HoldsPresent(EndInstall(p, q)) && EndInstall(p, q).life == p.life && EndInstall(p, q).route.hydration == p.route.hydration
  {
  }

  lemma TimeoutLedger(p: Plane, e: Event)
    requires PlaneOk(p) && FlagOk(p.life) && e.EvHydrationTimeout?
    ensures LedgerIs(p, e, OnDelivery(p, e)) && DetachesAre(p, e, OnDelivery(p, e))
  {
    hide PlaneOk, RecoverRoute, Entered, LedgerIs, DetachesAre, FlagOk;
    PresentHeld(p);
    EnteredSelf(p);
    if LosesSnapshot(p, e) {
      RecoverEnters(p.(route := p.route.(hydration := Some(p.route.hydration.value.(armed := false)))), e.hydration);
    }
    EnteredIs(p, e, OnDelivery(p, e));
  }

  lemma ArriveLedger(p: Plane, e: Event)
    requires e.EvArrive?
    ensures LedgerIs(p, e, OnDelivery(p, e)) && DetachesAre(p, e, OnDelivery(p, e))
  {
  }

  lemma BodyLedger(p: Plane, e: Event, serial: nat)
    requires PlaneOk(p) && FlagOk(p.life) && p.life.stream.Some? && Handled(p, e).Some?
    ensures Entered(p.life, HandleBody(Past(p, e), e.queue, serial, p.life.generation, Handled(p, e).value, e.now).life,
                    Reattaches(p, e), DetachedBy(p, e))
  {
    hide PlaneOk, CloseStream, RecoverRoute, Entered, FlagOk, EpochPasses, Pump, SettleResult, Overflows, Overflowing, AdmitToLast,
         FinishLast;
    var past, body := Past(p, e), Handled(p, e).value;
    PresentHeld(p);
    HydrationIsThere(p);
    EnteredSelf(p);
    RecoverEnters(past, past.route.hydration.value.id);
    ClosingEnters(past);
    if body.Output? && !LiveScreen(p) { CounterDecides(p, body.payload); }
    if LiveScreen(p) { LiveNeverOverflows(p); }
  }

  lemma DispatchLedger(p: Plane, e: Event)
    requires PlaneOk(p) && FlagOk(p.life) && e.EvDispatch?
    ensures LedgerIs(p, e, Step(p, e)) && DetachesAre(p, e, Step(p, e))
  {
    hide PlaneOk, HandleBody, Reset, CloseStream, Entered, LedgerIs, DetachesAre, FlagOk, EpochPasses, BodyLoses, BodyFails;
    DispatchParts(p, e);
    PresentHeld(p);
    EnteredSelf(p);
    if Handled(p, e).Some? {
      BodyLedger(p, e, p.route.Queue(e.queue).items[0].serial);
    } else if Dispatches(p, e.queue) {
      ClosingEnters(Popped(p, e.queue));
    }
    EnteredIs(p, e, Step(p, e));
  }

  lemma DeliveryLedger(p: Plane, e: Event)
    requires PlaneOk(p) && FlagOk(p.life) && e.Delivery()
    ensures LedgerIs(p, e, Step(p, e)) && DetachesAre(p, e, Step(p, e))
  {
    hide PlaneOk, LedgerIs, DetachesAre, OnDelivery, FlagOk;
    match e {
      case EvDispatch(_, _) => DispatchLedger(p, e);
      case EvArrive(_, _) => ArriveLedger(p, e);
      case EvHydrationTimeout(_) => TimeoutLedger(p, e);
      case _ => ReadingLedger(p, e);
    }
  }

  /** What every event enters into the ledger. */
  lemma LedgerStep(p: Plane, e: Event)
    requires PlaneOk(p) && FlagOk(p.life)
    ensures LedgerIs(p, e, Step(p, e)) && DetachesAre(p, e, Step(p, e))
  {
    hide PlaneOk, LedgerIs, DetachesAre, OnUser, OnChain, OnDelivery, OnLifecycle, FlagOk;
    if e.User() {
      UserLedger(p, e);
    } else if e.Chain() {
      ChainLedger(p, e);
    } else if e.Delivery() {
      DeliveryLedger(p, e);
    } else {
      LifecycleLedger(p, e);
    }
  }
}
