/** The data plane as the object it is: fields updated in place, byte counters kept by hand, and loops.
    Each method is proved to do to the state exactly what the functions of TerminalPlane and
    TerminalInput do to its value, so everything proved about those holds of the object. */
module HubTerminalDataPlane {
  import opened Wrappers
  import opened TerminalInput
  import opened TerminalInputProofs
  import opened TerminalPlaneProofs
  import opened TerminalSettlementTheorems
  import P = TerminalPlane

  // ---------------------------------------------------------------------------
  // The in-flight map, in insertion order.
  // ---------------------------------------------------------------------------

  /** The operations with ids below n, oldest first: the iteration order of the map. */
  function Ordered(m: map<nat, Inflight>, n: nat): seq<Inflight> {
    if n == 0 then [] else Ordered(m, n - 1) + if n - 1 in m then [m[n - 1]] else []
  }

  /** Every operation sits under its own id, below the next one. */
  ghost predicate WindowMap(m: map<nat, Inflight>, n: nat) {
    1 <= n && forall id :: id in m ==> 1 <= id < n && m[id].operationId == id
  }

  lemma {:induction false} OrderedFrame(m: map<nat, Inflight>, k: map<nat, Inflight>, n: nat)
    requires forall id: nat :: id < n ==> (id in m <==> id in k) && (id in m ==> m[id] == k[id])
    ensures Ordered(m, n) == Ordered(k, n)
  {
    if n != 0 { OrderedFrame(m, k, n - 1); }
  }

  lemma OrderedAdds(m: map<nat, Inflight>, n: nat, item: Inflight)
    requires WindowMap(m, n)
    ensures Ordered(m[n := item], n + 1) == Ordered(m, n) + [item]
    ensures InflightBytes(Ordered(m[n := item], n + 1)) == InflightBytes(Ordered(m, n)) + item.entry.op.BodyBytes()
    ensures item.operationId == n ==> WindowMap(m[n := item], n + 1)
  {
    OrderedFrame(m, m[n := item], n);
    InflightConcat(Ordered(m, n), [item]);
    InflightOne(item);
  }

  /** Entries are found by id, in increasing id order. */
  lemma {:induction false} OrderedFinds(m: map<nat, Inflight>, n: nat)
    requires forall id :: id in m ==> m[id].operationId == id
    ensures forall k :: 0 <= k < |Ordered(m, n)| ==>
      Ordered(m, n)[k].operationId in m && Ordered(m, n)[k] == m[Ordered(m, n)[k].operationId] && Ordered(m, n)[k].operationId < n
    ensures forall id :: id in m && id < n ==> m[id] in Ordered(m, n)
    ensures Ascending(Ordered(m, n))
  {
    if n != 0 { OrderedFinds(m, n - 1); }
  }

  lemma SizeWithout(m: map<nat, Inflight>, id: nat)
    ensures |m| == |m - {id}| + if id in m then 1 else 0
  {
    if id in m { assert m.Keys == (m - {id}).Keys + {id}; } else { assert m - {id} == m; }
  }

  lemma {:induction false} OrderedSize(m: map<nat, Inflight>, n: nat)
    requires AllBelow(m, n)
    ensures |Ordered(m, n)| == |m|
    decreases n
  {
    hide AllBelow;
    if n == 0 {
      NothingBelow(m);
    } else {
      var rest := m - {n - 1};
      Below(m, n);
      OrderedSize(rest, n - 1);
      SizeWithout(m, n - 1);
      OrderedGrows(m, n);
    }
  }

  lemma OrderedGrows(m: map<nat, Inflight>, n: nat)
    requires n != 0
    ensures |Ordered(m, n)| == |Ordered(m - {n - 1}, n - 1)| + if n - 1 in m then 1 else 0
  {
    OrderedFrame(m, m - {n - 1}, n - 1);
  }

  predicate AllBelow(m: map<nat, Inflight>, n: nat) { forall id :: id in m ==> id < n }

  lemma Below(m: map<nat, Inflight>, n: nat)
    requires n != 0 && AllBelow(m, n)
    ensures AllBelow(m - {n - 1}, n - 1)
  {
  }

  lemma NothingBelow(m: map<nat, Inflight>)
    requires AllBelow(m, 0)
    ensures |m| == 0
  {
    assert m.Keys == {};
  }

  lemma WindowSize(m: map<nat, Inflight>, n: nat)
    requires WindowMap(m, n)
    ensures |Ordered(m, n)| == |m|
  {
    OrderedSize(m, n);
  }

  /** Looking an id up in the map is looking it up in the window. */
  lemma Lookup(m: map<nat, Inflight>, n: nat, id: nat)
    requires WindowMap(m, n)
    ensures var k := IndexOf(Ordered(m, n), id);
      && (k < |Ordered(m, n)| <==> id in m)
      && (id in m ==> Ordered(m, n)[k] == m[id])
  {
    OrderedFinds(m, n);
  }

  lemma RemoveLast(before: seq<Inflight>, item: Inflight)
    requires forall k :: 0 <= k < |before| ==> before[k].operationId < item.operationId
    ensures var s := before + [item];
      var k := IndexOf(s, item.operationId);
      k == |before| && s[..k] + s[k + 1..] == before
  {
    var s := before + [item];
    assert s[|before|] == item;
    var k := IndexOf(s, item.operationId);
    assert forall j :: 0 <= j < |before| ==> s[j] == before[j];
  }

  lemma RemoveInside(before: seq<Inflight>, tail: seq<Inflight>, id: nat)
    requires IndexOf(before, id) < |before|
    ensures var s := before + tail;
      var k := IndexOf(s, id);
      k == IndexOf(before, id) && s[..k] + s[k + 1..] == (before[..k] + before[k + 1..]) + tail
  {
    IndexPrefix(before, tail, id);
  }

  lemma TailStays(m: map<nat, Inflight>, n: nat, id: nat)
    requires n != 0
    ensures Ordered(m, n) == Ordered(m, n - 1) + if n - 1 in m then [m[n - 1]] else []
    ensures id != n - 1 ==> Ordered(m - {id}, n) == Ordered(m - {id}, n - 1) + if n - 1 in m then [m[n - 1]] else []
    ensures id == n - 1 ==> Ordered(m - {id}, n) == Ordered(m, n - 1)
  {
    if id == n - 1 { OrderedFrame(m, m - {id}, n - 1); }
  }

  /** Deleting an id takes exactly its operation out of the window. */
  lemma {:induction false} OrderedRemoves(m: map<nat, Inflight>, n: nat, id: nat)
    requires (forall i :: i in m ==> m[i].operationId == i) && id in m && id < n
    ensures var s := Ordered(m, n);
      var k := IndexOf(s, id);
      k < |s| && Ordered(m - {id}, n) == s[..k] + s[k + 1..]
  {
    hide IndexOf, Ordered, Ascending;
    OrderedFinds(m, n - 1);
    TailStays(m, n, id);
    var before := Ordered(m, n - 1);
    if id == n - 1 {
      RemoveLast(before, m[id]);
    } else {
      OrderedRemoves(m, n - 1, id);
      RemoveInside(before, if n - 1 in m then [m[n - 1]] else [], id);
    }
  }

  lemma {:induction false} IndexPrefix(a: seq<Inflight>, b: seq<Inflight>, id: nat)
    requires IndexOf(a, id) < |a|
    ensures IndexOf(a + b, id) == IndexOf(a, id)
  {
    if a[0].operationId != id {
      assert (a + b)[1..] == a[1..] + b;
      IndexPrefix(a[1..], b, id);
    }
  }

  // ---------------------------------------------------------------------------
  // The object.
  // ---------------------------------------------------------------------------

  /** What streams and listeners have seen of the input side, and the numbering of operations. */
  datatype InputLog = InputLog(
    nextTicket: nat,
    wires: map<nat, seq<WireFrame>>,
    outcomes: seq<Outcome>,
    released: seq<nat>,
    refusals: seq<LocalRefusal>,
    confirmed: seq<Confirmation>)

  class DataPlane {
    /** Attachment lifecycle and route bookkeeping. */
    var life: P.Life
    var route: P.Route

    // Input.
    var nextOperationId: nat
    var queuedInputs: seq<Entry>
    var queuedInputBytes: nat
    var inflightInputs: map<nat, Inflight>
    var inflightInputBytes: nat
    var inputSendChains: map<nat, seq<Job>>
    var desiredGeometry: Option<Geometry>
    var sentGeometry: Option<Geometry>
    var geometryOperation: Option<nat>
    var pasteAttempt: nat
    var pendingUnsafePaste: Option<PendingPaste>
    var consentRetainedBytes: nat
    var log: InputLog

    ghost function InputNow(): Input
      reads `log, `nextOperationId, `queuedInputs, `inflightInputs, `inputSendChains, `desiredGeometry, `sentGeometry,
            `geometryOperation, `pasteAttempt, `pendingUnsafePaste
    {
      Input(log.nextTicket, nextOperationId, queuedInputs, Ordered(inflightInputs, nextOperationId), inputSendChains, log.wires,
            desiredGeometry, sentGeometry, geometryOperation, pasteAttempt, pendingUnsafePaste,
            log.outcomes, log.released, log.refusals, log.confirmed)
    }

    /** The state as a value of the model. */
    ghost function Model(): P.Plane
      reads this
    {
      P.Plane(life, route, InputNow())
    }

    /** The counters are the sums, and the map holds each operation under its id. */
    ghost predicate Accounts()
      reads `inflightInputs, `nextOperationId, `queuedInputs, `queuedInputBytes, `inflightInputBytes,
            `pendingUnsafePaste, `consentRetainedBytes
    {
      && WindowMap(inflightInputs, nextOperationId)
      && queuedInputBytes == QueuedBytes(queuedInputs)
      && inflightInputBytes == InflightBytes(Ordered(inflightInputs, nextOperationId))
      && consentRetainedBytes == ConsentBytes(pendingUnsafePaste)
    }

    ghost predicate Valid()
      reads this
    {
      Accounts() && PlaneOk(Model())
    }

    constructor (fixedSubscriptionId: bool)
      ensures Valid() && Model() == P.Initial(fixedSubscriptionId)
    {
      hide PlaneOk, Ordered, WindowMap, QueuedBytes, InflightBytes;
      var start := P.Initial(fixedSubscriptionId);
      life, route := start.life, start.route;
      nextOperationId, queuedInputs, queuedInputBytes := 1, [], 0;
      inflightInputs, inflightInputBytes, inputSendChains := map[], 0, map[];
      desiredGeometry, sentGeometry, geometryOperation, pasteAttempt := None, None, None, 0;
      pendingUnsafePaste, consentRetainedBytes := None, 0;
      log := InputLog(0, map[], [], [], [], []);
      EmptyWindow();
      InitialOk(fixedSubscriptionId);
      new;
    }

    // -------------------------------------------------------------------------
    // Window.
    // -------------------------------------------------------------------------

    /** The stream can take frames of this attachment. */
    predicate CanSend()
      reads this
    {
      life.stream.Some? && route.attached && !life.detached
    }

    /** Gives the entry the next operation id and a link at the end of the send chain. */
    method AppendOperation(entry: Entry)
      requires Accounts()
      modifies this
      ensures Accounts() && life == old(life) && route == old(route)
      ensures InputNow() == Append(old(InputNow()), life.generation, entry)
    {
      hide Ordered, WindowMap, InflightBytes, QueuedBytes;
      var g := life.generation;
      var operationId := nextOperationId;
      var item := Inflight(entry, operationId, g);
      OrderedAdds(inflightInputs, nextOperationId, item);
      nextOperationId := nextOperationId + 1;
      inflightInputs := inflightInputs[operationId := item];
      inflightInputBytes := inflightInputBytes + entry.op.BodyBytes();
      inputSendChains := inputSendChains[g := Of(inputSendChains, g) + [Job(item, Waiting)]];
    }

    /** Appends the one RESIZE operation when the route can take it. */
    method MaybeSendGeometry()
      requires Accounts()
      modifies this
      ensures Accounts() && life == old(life) && route == old(route)
      ensures InputNow() == SendGeometry(old(InputNow()), P.GateOf(life, route))
    {
      hide Ordered, WindowMap, InflightBytes, QueuedBytes;
      if !CanSend() || desiredGeometry.None? || geometryOperation.Some? || !P.ScreenHydrated(life, route) { return; }
      WindowSize(inflightInputs, nextOperationId);
      if |inflightInputs| >= MAX_INFLIGHT_INPUT_OPERATIONS || desiredGeometry == sentGeometry { return; }
      var ticket := log.nextTicket;
      log := log.(nextTicket := ticket + 1);
      AppendOperation(Entry(ticket, Operation.Resize(desiredGeometry.value), RESIZE_BODY_BYTES, None, 0, None));
      geometryOperation := Some(ticket);
    }

    /** Sends queued operations in order while the route is attached and the window has room. */
    method PumpInputs()
      requires Accounts()
      modifies this
      ensures Accounts() && life == old(life) && route == old(route)
      ensures InputNow() == Pump(old(InputNow()), P.GateOf(life, route))
    {
      hide Ordered, WindowMap, InflightBytes, QueuedBytes, SendGeometry;
      if !CanSend() { return; }
      MaybeSendGeometry();
      ghost var start := InputNow();
      WindowSize(inflightInputs, nextOperationId);
      while |inflightInputs| < MAX_INFLIGHT_INPUT_OPERATIONS
        invariant Accounts() && |Ordered(inflightInputs, nextOperationId)| == |inflightInputs|
        invariant life == old(life) && route == old(route)
        invariant Fill(InputNow(), life.generation) == Fill(start, life.generation)
        decreases |queuedInputs|
      {
        if queuedInputs == [] { return; }
        var entry := queuedInputs[0];
        QueuedHead(queuedInputs);
        queuedInputs := queuedInputs[1..];
        queuedInputBytes := queuedInputBytes - entry.op.BodyBytes();
        AppendOperation(entry);
        WindowSize(inflightInputs, nextOperationId);
      }
    }

    // -------------------------------------------------------------------------
    // Settlement.
    // -------------------------------------------------------------------------

    /** Frees the window slot of an operation that is in it. */
    method RemoveInflight(item: Inflight)
      requires Accounts() && Holds(InputNow(), item)
      modifies this
      ensures Accounts() && life == old(life) && route == old(route) && log == old(log)
      ensures InputNow() == Without(old(InputNow()), item)
    {
      hide Ordered, WindowMap, InflightBytes, QueuedBytes;
      HoldsIs(inflightInputs, nextOperationId, InputNow(), item);
      Deleted(inflightInputs, nextOperationId, item.operationId);
      var retained := inflightInputs[item.operationId].entry.op.BodyBytes();
      inflightInputs := inflightInputs - {item.operationId};
      inflightInputBytes := inflightInputBytes - retained;
      if geometryOperation == Some(item.entry.ticket) { geometryOperation := None; }
    }

    /** Releases an operation that was never sent: no INPUT_RESULT will arrive for it. */
    method ReleaseUnsentOperation(item: Inflight)
      requires Accounts()
      modifies this
      ensures Accounts() && life == old(life) && route == old(route)
      ensures InputNow() == Release(old(InputNow()), item)
    {
      hide Ordered, WindowMap, InflightBytes, QueuedBytes, Without, Holds;
      HoldsIs(inflightInputs, nextOperationId, InputNow(), item);
      if !InMap(inflightInputs, item) { return; }
      RemoveInflight(item);
      log := log.(released := log.released + [item.entry.ticket]);
    }

    method ReleaseUnsafePasteConsent()
      requires Accounts()
      modifies `pendingUnsafePaste, `consentRetainedBytes
      ensures Accounts()
      ensures InputNow() == ReleaseConsent(old(InputNow()))
    {
      hide Ordered, WindowMap, InflightBytes, QueuedBytes;
      pendingUnsafePaste := None;
      consentRetainedBytes := 0;
      // The accounting assertion of the source.
      assert consentRetainedBytes == ConsentBytes(pendingUnsafePaste);
    }

    /** Takes the operation out of the window and publishes its one outcome, with the consent a refusal grants. */
    method PublishSettled(item: Inflight, name: OutcomeName, accepted: Option<nat>, written: Option<nat>, now: nat)
      requires Accounts() && Holds(InputNow(), item)
      requires name == RejectedUnsafePaste ==> Held(InputNow(), item) == item && PasteDataOk(item.entry)
      modifies this
      ensures Accounts() && life == old(life) && route == old(route)
      ensures InputNow() == Record(old(InputNow()), P.GateOf(life, route), item, name, accepted, written, now)
    {
      hide Ordered, WindowMap, InflightBytes, QueuedBytes, IndexOf, Holds;
      HoldsIs(inflightInputs, nextOperationId, InputNow(), item);
      var retained := inflightInputs[item.operationId].entry.op.BodyBytes();
      RemoveInflight(item);
      if name == RejectedUnsafePaste && accepted == Some(0) && written == Some(0)
         && item.entry.pasteData.Some? && item.entry.pasteAttempt == pasteAttempt && P.IsCurrent(life, item.generation) {
        ReleaseUnsafePasteConsent();
        var consent := Consent(item.generation, item.operationId, now + CONSENT_TIMEOUT_MS);
        pendingUnsafePaste := Some(PendingPaste(consent, item.entry.pasteData.value, |log.outcomes|));
        consentRetainedBytes := retained;
        // The accounting assertion of the source.
        assert consentRetainedBytes == ConsentBytes(pendingUnsafePaste);
      }
      log := log.(outcomes := log.outcomes
        + [Outcome(item.entry, Some(item.operationId), item.generation, name, accepted, written)]);
    }

    /** Gives an operation still in flight its one outcome, then pumps. */
    method SettleInflight(item: Inflight, name: OutcomeName, accepted: Option<nat>, written: Option<nat>, now: nat)
      requires Accounts()
      requires Holds(InputNow(), item) && name == RejectedUnsafePaste ==>
        Held(InputNow(), item) == item && PasteDataOk(item.entry)
      modifies this
      ensures Accounts() && life == old(life) && route == old(route)
      ensures InputNow() == Settle(old(InputNow()), P.GateOf(life, route), item, name, accepted, written, now)
    {
      hide Ordered, WindowMap, InflightBytes, QueuedBytes, Holds, Pump, Record;
      HoldsIs(inflightInputs, nextOperationId, InputNow(), item);
      if !InMap(inflightInputs, item) { return; }
      PublishSettled(item, name, accepted, written, now);
      PumpInputs();
    }

    /** Everything in flight ends unknown. */
    method SettleAllUnknown()
      requires Accounts() && life.stream.None?
      modifies this
      ensures Accounts() && life == old(life) && route == old(route) && inflightInputs == map[]
      ensures InputNow() == old(InputNow()).(inflight := [], geometryOperation := geometryOperation,
        outcomes := old(log.outcomes) + UnknownOutcomes(old(InputNow()).inflight))
    {
      hide Ordered, WindowMap, InflightBytes, QueuedBytes, Settle, UnknownOutcomes;
      var values := Ordered(inflightInputs, nextOperationId);
      ghost var was := InputNow();
      NoneYet(values, was.outcomes);
      for k := 0 to |values|
        invariant Accounts() && life == old(life) && route == old(route)
        invariant InputNow() == was.(inflight := values[k..], geometryOperation := geometryOperation,
                                     outcomes := was.outcomes + UnknownOutcomes(values[..k]))
      {
        SettlesHead(InputNow(), was.outcomes, values, k, P.GateOf(life, route));
        SettleInflight(values[k], OutcomeUnknown, None, None, 0);
      }
      assert values[..|values|] == values && values[|values|..] == [];
      WindowSize(inflightInputs, nextOperationId);
    }

    /** Everything queued is cancelled. `g` is the attachment that ended. */
    method CancelQueue(g: nat)
      modifies this
      ensures life == old(life) && route == old(route) && inflightInputs == old(inflightInputs)
      ensures InputNow() == old(InputNow()).(queued := [],
        outcomes := old(log.outcomes) + CancelledOutcomes(old(queuedInputs), g))
    {
      hide Ordered;
      var dropped := queuedInputs;
      ghost var was := InputNow();
      queuedInputs := [];
      assert was.outcomes + CancelledOutcomes([], g) == was.outcomes;
      for k := 0 to |dropped|
        invariant life == old(life) && route == old(route) && inflightInputs == old(inflightInputs)
        invariant InputNow() == was.(queued := [], outcomes := was.outcomes + CancelledOutcomes(dropped[..k], g))
      {
        var outcome := Outcome(dropped[k], None, g, Cancelled, None, None);
        assert CancelledOutcomes(dropped[..k + 1], g) == CancelledOutcomes(dropped[..k], g) + [outcome];
        log := log.(outcomes := log.outcomes + [outcome]);
      }
      assert dropped[..|dropped|] == dropped;
    }

    /** The attachment changed. `g` is the one that ended. */
    method AbandonInputs(g: nat)
      requires Accounts() && life.stream.None?
      modifies this
      ensures Accounts() && life == old(life) && route == old(route)
      ensures InputNow() == Abandon(old(InputNow()), g)
    {
      hide Ordered, WindowMap, InflightBytes, QueuedBytes, UnknownOutcomes, CancelledOutcomes;
      SettleAllUnknown();
      CancelQueue(g);
      queuedInputBytes := 0;
      inflightInputBytes := 0;
      pendingUnsafePaste := None;
      consentRetainedBytes := 0;
      sentGeometry := None;
      geometryOperation := None;
      nextOperationId := 1;
      EmptyWindow();
    }

    // -------------------------------------------------------------------------
    // Closing and opening.
    // -------------------------------------------------------------------------

    /** Drops the stream handle, hydration and every input operation for this generation. */
    method ResetAttachmentState()
      requires Accounts()
      modifies this
      ensures Accounts() && Model() == P.Reset(old(Model()))
    {
      hide Accounts, InputNow, Abandon;
      var g := life.generation;
      life := life.(stream := None, attach := None, generation := g + 1);
      route := route.(attached := false, routeGeneration := None, acceptedEpoch := None, hydration := None,
                      queueId := route.queueId + 1);
      AbandonInputs(g);
    }

    /** One Detach request per attachment; after a public detach, one per subscription id. */
    method SendDetachRequestOnce(held: P.Held)
      modifies `life
      ensures life == P.SendDetachOnce(old(life), held)
    {
      if life.detachSentFor.Some? {
        var sent := life.detachSentFor.value;
        if life.detached && sent.subscription == held.subscription { return; }
        if sent == held { return; }
      }
      life := life.(detachSentFor := Some(held), detaches := life.detaches + [held]);
    }

    method CloseStream()
      requires Accounts()
      modifies this
      ensures Accounts() && Model() == P.CloseStream(old(Model()))
    {
      hide Accounts, InputNow, P.Reset, P.SendDetachOnce;
      if life.stream.Some? { SendDetachRequestOnce(P.HeldNow(life, route)); }
      ResetAttachmentState();
    }

    /** Starts an attach unless one is pending or a stream is there. A new one has a new generation and
        operation ids that start at 1 again. */
    method EnsureAttached()
      requires Accounts() && (life.stream.None? ==> inflightInputs == map[])
      modifies this
      ensures Accounts() && Model() == P.EnsureAttached(old(Model()))
      ensures life.stream.None? ==> inflightInputs == map[]
    {
      hide QueuedBytes, InflightBytes;
      if (life.detached && life.listeners == {}) || life.attach.Some? || life.stream.Some? { return; }
      if life.listeners == {} {
        life := life.(attach := Some(P.AttachTask(life.generation, P.AttachSettled)));
        return;
      }
      life := life.(generation := life.generation + 1, attach := Some(P.AttachTask(life.generation + 1, P.Acquiring)));
      route := route.(attached := false);
      EmptyOrdered(nextOperationId);
      nextOperationId := 1;
      EmptyWindow();
    }

    /** The stream is opened, once the attach may still go on. */
    method ResumeAttach(g: nat)
      requires Valid()
      modifies this
      ensures Valid() && Model() == P.AttachResume(old(Model()), g)
    {
      hide PlaneOk, Accounts, InputNow;
      AttachResumeOk(Model(), g);
      if life.attach != Some(P.AttachTask(g, P.Acquiring)) { return; }
      if !P.IsCurrent(life, g) || life.listeners == {} {
        life := life.(attach := Some(P.AttachTask(g, P.AttachSettled)));
        return;
      }
      EnsureHydration(g);
      life := life.(stream := Some(P.Stream(g, life.subscription, false)),
                    attach := Some(P.AttachTask(g, P.Opening)),
                    detachSentFor := None,
                    openings := life.openings + [P.Held(life.subscription, g)]);
      route := route.(routeGeneration := None, acceptedEpoch := None);
    }

    method EnsureHydration(g: nat)
      modifies `route
      ensures route == P.EnsureHydration(old(route), g)
    {
      if route.hydration.Some? && route.hydration.value.generation == g { return; }
      route := route.(
        hydration := Some(P.Hydration(route.nextHydration, g, [], 0, None, false, false, false, false, false, route.readerBound)),
        nextHydration := route.nextHydration + 1,
        segments := route.segments + [P.Segment(g, [], false)]);
    }

    method ArmHydrationProgressBound()
      modifies `route
      ensures route == P.Arm(old(route))
    {
      if route.hydration.None? || route.hydration.value.completed { return; }
      route := route.(hydration := Some(route.hydration.value.(armed := true)));
    }

    method StreamReady(g: nat, reserved: Option<nat>)
      requires Valid()
      modifies this
      ensures Valid() && Model() == P.AttachReady(old(Model()), g, reserved)
    {
      hide PlaneOk, Accounts, InputNow;
      AttachReadyOk(Model(), g, reserved);
      if life.attach != Some(P.AttachTask(g, P.Opening)) { return; }
      life := life.(attach := Some(P.AttachTask(g, P.AttachSettled)));
      if !P.IsCurrent(life, g) { return; }
      if reserved.Some? { route := route.(routeGeneration := reserved); }
      ArmHydrationProgressBound();
    }

    /** The attach promise failed, or its clean-up runs, or its Attach left the control channel. */
    method AttachProgress(g: nat, rejected: bool, sent: bool)
      requires Valid()
      modifies this
      ensures Valid()
      ensures Model() == if sent then P.MarkAttachSent(old(Model()), g)
        else if rejected then P.AttachRejected(old(Model()), g) else P.AttachCleared(old(Model()), g)
    {
      hide PlaneOk, Accounts, InputNow;
      AttachBookkeepingOk(Model(), g);
      if sent {
        if life.stream.Some? && life.stream.value.generation == g {
          life := life.(stream := Some(life.stream.value.(attachSent := true)));
        }
      } else if rejected {
        if life.attach == Some(P.AttachTask(g, P.Opening)) { life := life.(attach := Some(P.AttachTask(g, P.AttachSettled))); }
      } else if life.attach == Some(P.AttachTask(g, P.AttachSettled)) {
        life := life.(attach := None);
      }
    }

    method BindIncrementalSnapshotReader()
      requires Valid()
      modifies this
      ensures Valid() && Model() == old(Model()).(route := old(route).(readerBound := true))
    {
      hide PlaneOk, Accounts, InputNow;
      BindReaderOk(Model());
      route := route.(readerBound := true);
    }

    // -------------------------------------------------------------------------
    // Loss, recovery, detach, listeners.
    // -------------------------------------------------------------------------

    method HandleTransportLost()
      requires Valid()
      modifies this
      ensures Valid() && Model() == P.TransportLost(old(Model()))
    {
      hide PlaneOk, Accounts, InputNow, P.Reset;
      TransportLostOk(Model());
      if life.detached || life.transportLost { return; }
      var attachSent := route.attached || (life.stream.Some? && life.stream.value.attachSent);
      life := life.(transportLost := true, lastAbandoned := Some(P.Abandoned(P.HeldNow(life, route), attachSent)));
      ResetAttachmentState();
    }

    /** While no stream is open nothing is in flight. */
    lemma Idle()
      requires Valid()
      ensures life.stream.None? ==> inflightInputs == map[]
    {
      PlaneInput(Model());
      if life.stream.None? {
        ClosedChain(InputNow(), P.GateOf(life, route));
        WindowSize(inflightInputs, nextOperationId);
      }
    }

    method HandleTransportRecovered()
      requires Valid()
      modifies this
      ensures Valid() && Model() == P.TransportRecovered(old(Model()))
    {
      hide PlaneOk, Accounts, InputNow, P.EnsureAttached, P.SendDetachOnce;
      TransportRecoveredOk(Model());
      Idle();
      if life.detached || !life.transportLost || life.listeners == {} { return; }
      var owed := life.lastAbandoned;
      life := life.(transportLost := false, snapshotRecoveries := 0, lastAbandoned := None,
                    recoveryEpoch := life.recoveryEpoch + 1);
      if !life.fixedSubscription { life := P.MintSubscription(life); }
      if owed.Some? && !life.fixedSubscription && owed.value.attachSent {
        SendDetachRequestOnce(owed.value.held);
        life := life.(continuations := life.continuations + 1);
      } else {
        EnsureAttached();
      }
    }

    /** The stale Detach request of a recovery settled. */
    method ContinueRecovery()
      requires Valid()
      modifies this
      ensures Valid() && Model() == P.RecoveryContinues(old(Model()))
    {
      hide PlaneOk, Accounts, InputNow, P.EnsureAttached;
      RecoveryContinuesOk(Model());
      Idle();
      if life.continuations == 0 { return; }
      life := life.(continuations := life.continuations - 1);
      if life.detached || life.listeners == {} { return; }
      EnsureAttached();
    }

    method Detach()
      requires Valid()
      modifies this
      ensures Valid() && Model() == P.DetachPlane(old(Model()))
    {
      hide PlaneOk, Accounts, InputNow, P.Reset, P.SendDetachOnce;
      DetachPlaneOk(Model());
      if life.detached { return; }
      var held := P.HeldNow(life, route);
      life := life.(detached := true, transportLost := false);
      ResetAttachmentState();
      life := life.(listeners := {});
      SendDetachRequestOnce(held);
    }

    method SubscribeOutput(listener: nat)
      requires Valid()
      modifies this
      ensures Valid() && Model() == P.Subscribe(old(Model()), listener)
    {
      hide PlaneOk, Accounts, InputNow, P.EnsureAttached;
      SubscribeOk(Model(), listener);
      Idle();
      life := life.(listeners := life.listeners + {listener});
      if life.detached { return; }
      EnsureAttached();
    }

    method Unsubscribe(listener: nat)
      requires Valid()
      modifies this
      ensures Valid() && Model() == P.Unsubscribe(old(Model()), listener)
    {
      hide PlaneOk, Accounts, InputNow, P.CloseStream;
      UnsubscribeOk(Model(), listener);
      life := life.(listeners := life.listeners - {listener});
      if life.listeners == {} && !life.detached { CloseStream(); }
    }

    /** One fresh attach with a new subscription id for a lost snapshot; a second loss fails. */
    method RecoverRoute(hydration: nat)
      requires Accounts()
      modifies this
      ensures Accounts() && Model() == P.RecoverRoute(old(Model()), hydration)
    {
      hide Accounts, P.EnsureAttached, P.SendDetachOnce;
      if route.hydration.None? || route.hydration.value.id != hydration { return; }
      if life.snapshotRecoveries >= 1 || life.fixedSubscription {
        CloseStream();
        return;
      }
      life := life.(snapshotRecoveries := life.snapshotRecoveries + 1, reattaches := life.reattaches + [life.recoveryEpoch]);
      CloseStream();
      NothingInFlight();
      life := P.MintSubscription(life);
      EnsureAttached();
    }

    lemma NothingInFlight()
      requires Accounts() && InputNow().inflight == []
      ensures inflightInputs == map[]
    {
      WindowSize(inflightInputs, nextOperationId);
    }

    method HydrationProgressExpired(hydration: nat)
      requires Valid()
      modifies this
      ensures Valid() && Model() == P.HydrationTimeout(old(Model()), hydration)
    {
      hide PlaneOk, Accounts, InputNow, P.RecoverRoute;
      HydrationTimeoutOk(Model(), hydration);
      if route.hydration.None? || route.hydration.value.id != hydration { return; }
      if !route.hydration.value.armed || route.hydration.value.completed { return; }
      route := route.(hydration := Some(route.hydration.value.(armed := false)));
      RecoverRoute(hydration);
    }

    // -------------------------------------------------------------------------
    // User input.
    // -------------------------------------------------------------------------

    /** Queued plus in-flight client payload bytes, and those a pending consent keeps. */
    function RetainedInputBytes(): (bytes: nat)
      requires Accounts()
      reads this
      ensures bytes == RetainedBytes(InputNow())
    {
      queuedInputBytes + inflightInputBytes + consentRetainedBytes
    }

    /** Reserves queue capacity for one operation, or refuses it without retaining anything. `rejection`
        is the refusal a confirmed paste answers. */
    method EnqueueInput(entry: Entry, rejection: Option<nat>) returns (admitted: bool)
      requires Accounts() && (life.stream.None? ==> inflightInputs == map[])
      modifies this
      ensures Accounts() && admitted == Admits(old(InputNow()), entry.op)
      ensures Model() == if admitted
        then P.PumpPlane(P.EnsureAttached(old(Model()).(input := WithEntry(old(InputNow()), entry, rejection))))
        else old(Model())
    {
      hide P.EnsureAttached, Pump, Ordered, WindowMap, InflightBytes, QueuedBytes, P.GateOf;
      var bytes := entry.op.BodyBytes();
      if |queuedInputs| >= MAX_QUEUED_INPUT_OPERATIONS || RetainedInputBytes() + bytes > MAX_QUEUED_INPUT_BYTES {
        return false;
      }
      QueuedTail(queuedInputs, entry);
      queuedInputs := queuedInputs + [entry];
      queuedInputBytes := queuedInputBytes + bytes;
      log := log.(nextTicket := log.nextTicket + 1,
                  confirmed := if rejection.Some? then log.confirmed + [Confirmation(entry.ticket, rejection.value)]
                               else log.confirmed);
      EnsureAttached();
      PumpInputs();
      return true;
    }

    method SendInput(op: Operation, requestedBytes: nat)
      requires Valid() && !op.Paste? && !op.Resize?
      modifies this
      ensures Valid() && Model() == P.SendInput(old(Model()), op, requestedBytes)
    {
      hide PlaneOk, Accounts, P.EnsureAttached, P.PumpPlane, Admits, Ordered;
      SendInputOk(Model(), op, requestedBytes);
      Idle();
      if life.detached { return; }
      var admitted := EnqueueInput(Entry(log.nextTicket, op, requestedBytes, None, 0, None), None);
      if !admitted { log := log.(refusals := log.refusals + [QueueBounds]); }
    }

    /** Latest wins: the pump sends it when the route can take a RESIZE. */
    method Resize(geometry: Geometry)
      requires Valid()
      modifies this
      ensures Valid() && Model() == P.ResizeTo(old(Model()), geometry)
    {
      hide PlaneOk, Accounts, P.EnsureAttached, Pump, P.GateOf, Ordered;
      ResizeToOk(Model(), geometry);
      Idle();
      if life.detached { return; }
      desiredGeometry := Some(geometry);
      EnsureAttached();
      PumpInputs();
    }

    method WritePaste(units: nat, data: Bytes)
      requires Valid()
      modifies this
      ensures Valid() && Model() == P.WritePaste(old(Model()), units, data)
    {
      hide PlaneOk, P.EnsureAttached, P.PumpPlane, Admits, Ordered, WindowMap, InflightBytes, QueuedBytes;
      WritePasteOk(Model(), units, data);
      Idle();
      ReleaseUnsafePasteConsent();
      pasteAttempt := pasteAttempt + 1;
      if units == 0 {
        log := log.(refusals := log.refusals + [EmptyPaste]);
      } else if life.detached {
        log := log.(refusals := log.refusals + [PasteWhileDetached]);
      } else if units > MAX_PASTE_BYTES || |data| > MAX_PASTE_BYTES {
        log := log.(refusals := log.refusals + [PasteTooLarge]);
      } else {
        var entry := Entry(log.nextTicket, Paste(data, false), |data|, Some(data), pasteAttempt, None);
        var admitted := EnqueueInput(entry, None);
        if !admitted { log := log.(refusals := log.refusals + [QueueBounds]); }
      }
    }

    method ConfirmUnsafePaste(consent: Consent, now: nat) returns (admitted: bool)
      requires Valid()
      modifies this
      ensures Valid() && Model() == P.Confirm(old(Model()), consent, now)
      ensures admitted == (Model().input.confirmed != old(Model()).input.confirmed)
    {
      hide PlaneOk, P.EnsureAttached, P.PumpPlane, Ordered, WindowMap, InflightBytes, QueuedBytes, Admits;
      ConfirmOk(Model(), consent, now);
      Idle();
      if pendingUnsafePaste.None? || pendingUnsafePaste.value.consent != consent { return false; }
      var pending := pendingUnsafePaste.value;
      ReleaseUnsafePasteConsent();
      if !P.IsCurrent(life, consent.generation) || now >= consent.expiresAt { return false; }
      ghost var freed := Model();
      var entry := Entry(log.nextTicket, Paste(pending.data, true), |pending.data|, None, 0, Some(|log.confirmed|));
      admitted := EnqueueInput(entry, Some(pending.rejection));
      if admitted {
        AttachKeepsConfirmations(freed.(input := WithEntry(freed.input, entry, Some(pending.rejection))));
      } else {
        log := log.(refusals := log.refusals + [QueueBounds]);
      }
    }

    /** Also what the consent timer does at its expiry. */
    method CancelUnsafePaste(consent: Consent) returns (cancelled: bool)
      requires Valid()
      modifies this
      ensures Valid() && Model() == P.CancelPaste(old(Model()), consent)
      ensures cancelled == ConsentMatches(old(InputNow()), consent)
    {
      hide PlaneOk, Ordered, WindowMap, InflightBytes, QueuedBytes;
      CancelPasteOk(Model(), consent);
      if pendingUnsafePaste.None? || pendingUnsafePaste.value.consent != consent { return false; }
      ReleaseUnsafePasteConsent();
      return true;
    }

    // -------------------------------------------------------------------------
    // The send chain: the continuations of its head link.
    // -------------------------------------------------------------------------

    method PopLink(g: nat)
      requires Accounts() && Of(inputSendChains, g) != []
      modifies `inputSendChains
      ensures Accounts() && InputNow() == PopHead(old(InputNow()), g)
    {
      inputSendChains := inputSendChains[g := Of(inputSendChains, g)[1..]];
    }

    /** The head link moves on, offering a frame if it has one. */
    method MoveLink(g: nat, job: Job, part: Option<Part>)
      requires Accounts() && Of(inputSendChains, g) != []
      modifies `inputSendChains, `log
      ensures Accounts() && log.wires == InputNow().wires
      ensures var moved := SetHead(old(InputNow()), g, job);
        InputNow() == if part.Some? then Offer(moved, g, WireFrame(job.item, part.value)) else moved
    {
      inputSendChains := inputSendChains[g := [job] + Of(inputSendChains, g)[1..]];
      if part.Some? {
        log := log.(wires := log.wires[g := Of(log.wires, g) + [WireFrame(job.item, part.value)]]);
      }
    }

    /** Builds the frames and offers the first, or fails when the encoder throws. */
    method SendFrames(g: nat, item: Inflight)
      requires Accounts() && Of(inputSendChains, g) != []
      modifies `inputSendChains, `log
      ensures Accounts() && InputNow() == StartSending(old(InputNow()), g, item)
    {
      hide Accounts, Ordered;
      if item.entry.op.Encodes() {
        MoveLink(g, Job(item, Sending(0)), Some(Data(0)));
      } else {
        MoveLink(g, Job(item, Failed), None);
      }
    }

    /** The RESIZE reads the latest geometry now, or frees its slot without a send. */
    method SendLatestGeometry(g: nat, item: Inflight)
      requires Accounts() && Of(inputSendChains, g) != []
      modifies this
      ensures Accounts() && life == old(life) && route == old(route)
      ensures InputNow() == StartGeometry(old(InputNow()), P.GateOf(life, route), g, item)
    {
      hide Ordered, WindowMap, InflightBytes, QueuedBytes, StartSending, Release, Pump;
      if desiredGeometry.Some? && P.ScreenHydrated(life, route) && desiredGeometry != sentGeometry {
        var late := item.(entry := item.entry.(op := Operation.Resize(desiredGeometry.value)));
        sentGeometry := desiredGeometry;
        SendFrames(g, late);
      } else {
        PopLink(g);
        ReleaseUnsentOperation(item);
        PumpInputs();
      }
    }

    /** The link starts. */
    method RunLink(g: nat)
      requires Valid()
      modifies this
      ensures Valid() && Model() == old(Model()).(input := ChainRun(old(InputNow()), P.GateOf(old(life), old(route)), g))
    {
      hide PlaneOk, Accounts, Ordered, Settle, StartGeometry, StartSending, Holds;
      ChainRunKeeps(Model(), g);
      var chain := Of(inputSendChains, g);
      if chain == [] || chain[0].phase != Waiting { return; }
      var item := chain[0].item;
      if !P.IsCurrent(life, item.generation) || life.stream.None? || life.stream.value.generation != g {
        PopLink(g);
        SettleInflight(item, Cancelled, None, None, 0);
      } else if geometryOperation == Some(item.entry.ticket) {
        SendLatestGeometry(g, item);
      } else {
        SendFrames(g, item);
      }
    }

    method FrameAccepted(g: nat)
      requires Valid()
      modifies this
      ensures Valid() && Model() == old(Model()).(input := TerminalInput.SendDone(old(InputNow()), g))
    {
      hide PlaneOk, Accounts, Ordered;
      SendDoneKeeps(Model(), g);
      var chain := Of(inputSendChains, g);
      if chain == [] || !chain[0].phase.Sending? { return; }
      var item, next := chain[0].item, chain[0].phase.index + 1;
      if next < item.entry.op.FrameCount() {
        MoveLink(g, Job(item, Sending(next)), Some(Data(next)));
      } else {
        PopLink(g);
      }
    }

    /** A paste that stopped after its first frame is aborted on the same stream. */
    method FrameRejected(g: nat)
      requires Valid()
      modifies this
      ensures Valid() && Model() == old(Model()).(input := TerminalInput.SendFail(old(InputNow()), P.GateOf(old(life), old(route)), g))
    {
      hide PlaneOk, Accounts, Ordered;
      SendFailKeeps(Model(), g);
      var chain := Of(inputSendChains, g);
      if chain == [] || !chain[0].phase.Sending? { return; }
      var item := chain[0].item;
      if item.entry.op.Paste? && chain[0].phase.index > 0 && life.stream.Some? && life.stream.value.generation == g {
        MoveLink(g, Job(item, Aborting), Some(Abort));
      } else {
        MoveLink(g, Job(item, Failed), None);
      }
    }

    method AbortSettled(g: nat)
      requires Valid()
      modifies this
      ensures Valid() && Model() == old(Model()).(input := AbortDone(old(InputNow()), g))
    {
      hide PlaneOk, Accounts, Ordered;
      AbortDoneKeeps(Model(), g);
      var chain := Of(inputSendChains, g);
      if chain == [] || chain[0].phase != Aborting { return; }
      MoveLink(g, Job(chain[0].item, Failed), None);
    }

    /** The link's catch. */
    method CatchLink(g: nat)
      requires Valid()
      modifies this
      ensures Valid() && Model() == old(Model()).(input := ChainCatch(old(InputNow()), P.GateOf(old(life), old(route)), g))
    {
      hide PlaneOk, Accounts, Ordered, Settle, Holds;
      ChainCatchKeeps(Model(), g);
      var chain := Of(inputSendChains, g);
      if chain == [] || chain[0].phase != Failed { return; }
      PopLink(g);
      SettleInflight(chain[0].item, Cancelled, None, None, 0);
    }

    // -------------------------------------------------------------------------
    // Route frames.
    // -------------------------------------------------------------------------

    /** The stream callback of attachment `tag`: the event joins the queue current at that moment. */
    method EnqueueTerminalEvent(event: P.StreamEvent, tag: nat)
      requires Valid()
      modifies this
      ensures Valid() && Model() == P.Arrive(old(Model()), tag, event)
    {
      hide PlaneOk, Accounts, InputNow;
      ArriveOk(Model(), tag, event);
      var delivers := exists k :: 0 <= k < |life.openings| && life.openings[k].generation == tag;
      if !delivers { return; }
      var queue := route.Queue(route.queueId);
      var arrival := P.Arrival(|route.arrivals|, tag, event);
      route := route.(arrivals := route.arrivals + [event],
                      queues := route.queues[route.queueId := queue.(items := queue.items + [arrival])]);
    }

    /** Attachment identity fence: the first generation seen, or the reserved one, is the only one. */
    method AdmitRouteGeneration(generation: nat) returns (admitted: bool)
      modifies `route
      ensures admitted == P.AdmitsGeneration(old(route), generation)
      ensures route == if admitted then old(route).(routeGeneration := Some(generation)) else old(route)
    {
      if route.routeGeneration.None? {
        route := route.(routeGeneration := Some(generation));
        return true;
      }
      return generation == route.routeGeneration.value;
    }

    /** Delivers to the listeners. */
    method EmitOutput(item: P.Item)
      modifies `route
      ensures route == old(route).(delivered := old(route).delivered + [item])
    {
      route := route.(delivered := route.delivered + [item]);
    }

    method ReceiveOutput(tag: nat, item: P.Item)
      requires Accounts()
      modifies this
      ensures Accounts() && Model() == P.ReceiveOutput(old(Model()), tag, item)
    {
      hide Accounts, InputNow, P.RecoverRoute, P.AdmitToLast;
      if route.hydration.Some? && route.hydration.value.generation == tag && !route.hydration.value.completed {
        var h := route.hydration.value;
        var bufferedBytes := h.bufferedBytes + |item.data|;
        if bufferedBytes > P.MAX_PENDING_TERMINAL_BYTES || |h.buffered| + 1 > P.MAX_PENDING_TERMINAL_ITEMS {
          RecoverRoute(h.id);
          return;
        }
        route := P.AdmitItem(route, item);
        route := route.(hydration := Some(h.(buffered := h.buffered + [item], bufferedBytes := bufferedBytes)));
        return;
      }
      route := P.AdmitItem(route, item);
      EmitOutput(item);
    }

    method ReceiveProcessExit(tag: nat, code: int)
      modifies `route
      ensures P.Plane(life, route, InputNow()) == P.ReceiveExit(old(Model()), tag, code)
    {
      if route.hydration.Some? && route.hydration.value.generation == tag && !route.hydration.value.completed {
        route := route.(hydration := Some(route.hydration.value.(pendingExit := Some(code))));
        return;
      }
      route := route.(exits := route.exits + [code]);
    }

    /** FINISH: the buffered payloads go to the listeners in order, then a held process exit. */
    method CompleteHydration()
      requires Accounts() && route.hydration.Some?
      modifies this
      ensures Accounts() && Model() == P.CompleteHydration(old(Model()))
    {
      hide Accounts, InputNow, Pump, P.FinishLast;
      var h := route.hydration.value;
      ghost var was := route;
      route := route.(hydration := Some(h.(completed := true, armed := false)), segments := P.FinishLast(route.segments));
      ghost var open := route;
      assert open.delivered + h.buffered[..0] == open.delivered;
      for k := 0 to |h.buffered|
        invariant Accounts() && life == old(life) && InputNow() == old(InputNow())
        invariant route == open.(delivered := was.delivered + h.buffered[..k])
      {
        assert h.buffered[..k + 1] == h.buffered[..k] + [h.buffered[k]];
        EmitOutput(h.buffered[k]);
      }
      assert h.buffered[..|h.buffered|] == h.buffered;
      route := route.(hydration := Some(h.(completed := true, armed := false, buffered := [], bufferedBytes := 0)));
      if h.pendingExit.Some? { route := route.(exits := route.exits + [h.pendingExit.value]); }
      PumpInputs();
    }

    method ReceiveSnapshotFinish(tag: nat)
      requires Accounts()
      modifies this
      ensures Accounts() && Model() == P.ReceiveFinish(old(Model()), tag)
    {
      hide Accounts, InputNow, P.CloseStream, P.CompleteHydration;
      EnsureHydration(tag);
      var h := route.hydration.value;
      if h.completed { return; }
      if !h.readyReceived {
        CloseStream();
        return;
      }
      if !h.decoderFinished { route := route.(hydration := Some(h.(historyIncomplete := true))); }
      CompleteHydration();
    }

    method ReceiveHistoryUnavailable(tag: nat)
      requires Accounts()
      modifies this
      ensures Accounts() && Model() == P.ReceiveHistoryUnavailable(old(Model()), tag)
    {
      hide Accounts, InputNow, P.CloseStream;
      EnsureHydration(tag);
      if !route.hydration.value.readyReceived {
        CloseStream();
        return;
      }
      route := route.(hydration := Some(route.hydration.value.(historyIncomplete := true)));
    }

    /** A new stream epoch: everything decoded for the old one is discarded, in-flight input stays pending. */
    method ReceiveRouteResync(tag: nat, toEpoch: nat)
      requires Accounts()
      modifies this
      ensures Accounts() && Model() == P.ReceiveResync(old(Model()), tag, toEpoch)
    {
      hide Accounts, Ordered;
      route := route.(acceptedEpoch := Some(toEpoch));
      ReleaseUnsafePasteConsent();
      route := route.(hydration := None);
      EnsureHydration(tag);
      ArmHydrationProgressBound();
    }

    method ReceiveAttachState(tag: nat, state: P.AttachState)
      requires Accounts()
      modifies this
      ensures Accounts() && Model() == P.ReceiveAttachState(old(Model()), tag, state)
    {
      hide Accounts, InputNow, P.CloseStream, P.RecoverRoute, Pump;
      match state {
        case Attached =>
          route := route.(attached := true, acceptedEpoch := Some(0));
          PumpInputs();
        case Attaching =>
        case AttachFailed =>
          if route.hydration.Some? && route.hydration.value.generation == tag && !route.hydration.value.readyReceived {
            RecoverRoute(route.hydration.value.id);
          } else {
            CloseStream();
          }
        case RouteDetached => CloseStream();
      }
    }

    /** An INPUT_RESULT: an unknown or already settled id changes nothing. */
    method HandleInputResult(id: nat, name: OutcomeName, accepted: Option<nat>, written: Option<nat>, now: nat)
      requires Accounts() && WindowPastesOk(InputNow().inflight)
      modifies this
      ensures Accounts() && life == old(life) && route == old(route)
      ensures InputNow() == SettleResult(old(InputNow()), P.GateOf(life, route), id, name, accepted, written, now)
    {
      hide Settle, Ordered, WindowMap, InflightBytes, QueuedBytes;
      Lookup(inflightInputs, nextOperationId, id);
      if id !in inflightInputs || inflightInputs[id].generation != life.generation { return; }
      assert PasteDataOk(inflightInputs[id].entry);
      SettleInflight(inflightInputs[id], name, accepted, written, now);
    }

    /** Stream epoch fence within the attachment. */
    predicate AdmitsStreamEpoch(epoch: nat, body: P.Body): (admitted: bool)
      reads `route
      ensures admitted == P.AdmitsEpoch(route, epoch, body)
    {
      if body.AttachStateFrame? || body.InputResult? then true
      else if route.acceptedEpoch.None? then false
      else if body.RouteResync?
      then body.fromEpoch == route.acceptedEpoch.value && body.toEpoch != body.fromEpoch && body.toEpoch == epoch
      else epoch == route.acceptedEpoch.value
    }

    method BeginInstall(q: nat, tag: nat, ready: bool)
      modifies `route
      ensures P.Plane(life, route, InputNow()) == P.BeginInstall(old(Model()), q, tag, ready)
    {
      EnsureHydration(tag);
      var queue := route.Queue(q);
      route := P.SetQueue(route, q, queue.(install := Some(P.Install(route.hydration.value.id, tag, ready, false))));
    }

    method HandleBody(q: nat, serial: nat, tag: nat, body: P.Body, now: nat)
      requires Accounts() && WindowPastesOk(InputNow().inflight)
      modifies this
      ensures Accounts() && Model() == P.HandleBody(old(Model()), q, serial, tag, body, now)
    {
      hide Accounts, InputNow, P.ReceiveOutput, P.ReceiveExit, P.ReceiveHistoryUnavailable, P.ReceiveResync, P.BeginInstall,
           P.ReceiveFinish, P.ReceiveAttachState, SettleResult, WindowPastesOk;
      match body {
        case Undecodable =>
        case Output(payload) => ReceiveOutput(tag, P.Item(serial, payload));
        case SnapshotReady(_) => BeginInstall(q, tag, true);
        case SnapshotHistory(_) => BeginInstall(q, tag, false);
        case SnapshotFinish => ReceiveSnapshotFinish(tag);
        case ProcessExit(code) => ReceiveProcessExit(tag, code);
        case Modes =>
        case AttachStateFrame(state) => ReceiveAttachState(tag, state);
        case InputResult(id, name, accepted, written) => HandleInputResult(id, name, accepted, written, now);
        case HistoryUnavailable => ReceiveHistoryUnavailable(tag);
        case RouteResync(_, to) => ReceiveRouteResync(tag, to);
      }
    }

    method ReceiveRouteFrame(q: nat, serial: nat, tag: nat, frame: P.StreamEvent, now: nat)
      requires Accounts() && WindowPastesOk(InputNow().inflight) && frame.Frame?
      modifies this
      ensures Accounts() && Model() == P.ReceiveFrame(old(Model()), q, serial, tag, frame, now)
    {
      hide Accounts, InputNow, P.CloseStream, P.HandleBody, WindowPastesOk;
      if frame.body.Undecodable? {
        CloseStream();
        return;
      }
      var epochAdmitted := AdmitsStreamEpoch(frame.epoch, frame.body);
      var admitted := AdmitRouteGeneration(frame.generation);
      if !admitted || !epochAdmitted { return; }
      HandleBody(q, serial, tag, frame.body, now);
    }

    lemma PastesHeld()
      requires Valid()
      ensures WindowPastesOk(InputNow().inflight)
    {
      hide WindowOk, GeometryOk, BytesOk, ChainsOk, OrderOk, FenceOk, SlotOk;
      PlaneInput(Model());
    }

    /** The next event of queue q is taken, unless an install blocks the queue. */
    method EmitTerminalEvent(q: nat, now: nat)
      requires Valid()
      modifies this
      ensures Valid() && Model() == P.Dispatch(old(Model()), q, now)
    {
      hide PlaneOk, Accounts, InputNow, P.CloseStream, P.Reset, P.ReceiveFrame, WindowPastesOk;
      DispatchOk(Model(), q, now);
      PastesHeld();
      var queue := route.Queue(q);
      if queue.install.Some? || queue.items == [] { return; }
      var a := queue.items[0];
      route := P.SetQueue(route, q, queue.(items := queue.items[1..]));
      if !P.IsCurrent(life, a.tag) { return; }
      match a.event {
        case Closed(subscription, adapterClosed) =>
          if subscription != life.subscription { return; }
          if adapterClosed { CloseStream(); } else { ResetAttachmentState(); }
        case Frame(routeId, _, _, _) =>
          if routeId != life.subscription { return; }
          ReceiveRouteFrame(q, a.serial, a.tag, a.event, now);
      }
    }

    // -------------------------------------------------------------------------
    // Snapshot installation.
    // -------------------------------------------------------------------------

    method EndInstall(q: nat)
      modifies `route
      ensures P.Plane(life, route, InputNow()) == P.EndInstall(old(Model()), q)
    {
      route := P.SetQueue(route, q, route.Queue(q).(install := None));
    }

    /** The install goes on only for the hydration of the current attachment; it may call the reader. */
    method StartInstall(q: nat)
      requires Valid()
      modifies this
      ensures Valid() && Model() == P.StartInstall(old(Model()), q)
    {
      hide PlaneOk, Accounts, InputNow, P.CloseStream;
      StartInstallOk(Model(), q);
      var queue := route.Queue(q);
      if queue.install.None? || queue.install.value.reading { return; }
      var install := queue.install.value;
      if !P.IsCurrent(life, install.generation) || route.hydration.None? || route.hydration.value.id != install.hydration {
        EndInstall(q);
        return;
      }
      var h := route.hydration.value;
      if h.completed || (if install.ready then h.readyReceived else !h.readyReceived) {
        EndInstall(q);
        CloseStream();
      } else if h.historyIncomplete || h.decoderFinished {
        EndInstall(q);
      } else if !h.hasReader {
        EndInstall(q);
        CloseStream();
      } else {
        route := P.SetQueue(route, q, queue.(install := Some(install.(reading := true))));
      }
    }

    method ReaderResolved(q: nat, progress: P.Progress)
      requires Valid()
      modifies this
      ensures Valid() && Model() == P.ReaderDone(old(Model()), q, progress)
    {
      hide PlaneOk, Accounts, InputNow, P.CloseStream;
      ReaderDoneOk(Model(), q, progress);
      var queue := route.Queue(q);
      if queue.install.None? || !queue.install.value.reading { return; }
      var install := queue.install.value;
      EndInstall(q);
      if !P.IsCurrent(life, install.generation) || route.hydration.None? || route.hydration.value.id != install.hydration { return; }
      match progress {
        case ReaderReady =>
          if !install.ready {
            CloseStream();
            return;
          }
          route := route.(hydration := Some(route.hydration.value.(readyReceived := true)));
        case ReaderPage =>
          if install.ready {
            CloseStream();
            return;
          }
        case ReaderFinish =>
          if install.ready {
            CloseStream();
            return;
          }
          route := route.(hydration := Some(route.hydration.value.(decoderFinished := true)));
        case ReaderUnknown =>
          CloseStream();
          return;
      }
      ArmHydrationProgressBound();
    }

    method ReaderRejected(q: nat)
      requires Valid()
      modifies this
      ensures Valid() && Model() == P.ReaderFailed(old(Model()), q)
    {
      hide PlaneOk, Accounts, InputNow, P.RecoverRoute;
      ReaderFailedOk(Model(), q);
      var queue := route.Queue(q);
      if queue.install.None? || !queue.install.value.reading { return; }
      var install := queue.install.value;
      EndInstall(q);
      if !P.IsCurrent(life, install.generation) || route.hydration.None? || route.hydration.value.id != install.hydration { return; }
      RecoverRoute(install.hydration);
    }
  }

  /** Settling the oldest operation while no stream is open. */
  lemma SettlesHead(i: Input, before: seq<Outcome>, values: seq<Inflight>, k: nat, gate: Gate)
    requires k < |values| && i.inflight == values[k..] && gate.stream.None?
    requires i.outcomes == before + UnknownOutcomes(values[..k])
    ensures Holds(i, values[k])
    ensures var j := Settle(i, gate, values[k], OutcomeUnknown, None, None, 0);
      j == i.(inflight := values[k + 1..], geometryOperation := j.geometryOperation,
              outcomes := before + UnknownOutcomes(values[..k + 1]))
  {
    var s := values[k..];
    assert s[..0] + s[1..] == values[k + 1..];
    assert UnknownOutcomes(values[..k + 1]) == UnknownOutcomes(values[..k])
      + [Outcome(values[k].entry, Some(values[k].operationId), values[k].generation, OutcomeUnknown, None, None)];
  }

  lemma NoneYet(values: seq<Inflight>, outcomes: seq<Outcome>)
    ensures values[0..] == values && outcomes + UnknownOutcomes(values[..0]) == outcomes
  {
  }

  lemma {:induction false} EmptyOrdered(n: nat)
    ensures Ordered(map[], n) == []
  {
    if n != 0 { EmptyOrdered(n - 1); }
  }

  lemma EmptyWindow()
    ensures Ordered(map[], 1) == [] && WindowMap(map[], 1)
    ensures QueuedBytes([]) == 0 && InflightBytes([]) == 0
  {
  }

  /** The map holds this very operation. */
  predicate InMap(m: map<nat, Inflight>, item: Inflight) {
    item.operationId in m && m[item.operationId].entry.ticket == item.entry.ticket
  }

  lemma HoldsIs(m: map<nat, Inflight>, n: nat, i: Input, item: Inflight)
    requires WindowMap(m, n) && i.inflight == Ordered(m, n)
    ensures Holds(i, item) <==> InMap(m, item)
    ensures Holds(i, item) ==> Held(i, item) == m[item.operationId]
  {
    Lookup(m, n, item.operationId);
  }

  /** What deleting an operation from the map does to the window and its bytes. */
  lemma Deleted(m: map<nat, Inflight>, n: nat, id: nat)
    requires WindowMap(m, n) && id in m
    ensures WindowMap(m - {id}, n)
    ensures var s := Ordered(m, n);
      var k := IndexOf(s, id);
      && k < |s| && Ordered(m - {id}, n) == s[..k] + s[k + 1..]
      && InflightBytes(s) == InflightBytes(Ordered(m - {id}, n)) + m[id].entry.op.BodyBytes()
  {
    OrderedRemoves(m, n, id);
    Lookup(m, n, id);
    InflightRemove(Ordered(m, n), IndexOf(Ordered(m, n), id));
  }

  /** The queue with one more operation, and the confirmation it answers. */
  ghost function WithEntry(i: Input, entry: Entry, rejection: Option<nat>): Input {
    var j := Enqueue(i, entry);
    if rejection.Some? then j.(confirmed := i.confirmed + [Confirmation(entry.ticket, rejection.value)]) else j
  }

  lemma AttachKeepsConfirmations(q: P.Plane)
    ensures P.PumpPlane(P.EnsureAttached(q)).input.confirmed == q.input.confirmed
  {
    var r := P.EnsureAttached(q);
    PumpKeepsLogs(r.input, P.GateOf(r.life, r.route));
  }

  lemma QueuedTail(queued: seq<Entry>, entry: Entry)
    ensures QueuedBytes(queued + [entry]) == QueuedBytes(queued) + entry.op.BodyBytes()
  {
    QueuedConcat(queued, [entry]);
    QueuedOne(entry);
  }

  lemma QueuedHead(queued: seq<Entry>)
    requires queued != []
    ensures QueuedBytes(queued) == queued[0].op.BodyBytes() + QueuedBytes(queued[1..])
  {
    assert queued == [queued[0]] + queued[1..];
    QueuedConcat([queued[0]], queued[1..]);
    QueuedOne(queued[0]);
  }
}
