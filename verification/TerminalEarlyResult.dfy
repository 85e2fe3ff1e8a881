/** Two runs in which the host answers a RESIZE before it was sent. In one the stream is offered the same
    geometry twice in a row; in the other it is left with a geometry that is not the latest requested. */
module TerminalEarlyResult {
  import opened Wrappers
  import opened TerminalInput
  import opened TerminalPlane
  import opened TerminalHistory
  import opened TerminalGeometryTheorems

  const SIZE := Geometry(24, 80, 640, 384)

  function FrameOf(body: Body): StreamEvent { Frame(0, 7, 0, body) }

  const ATTACHED := FrameOf(AttachStateFrame(Attached))
  const READY := FrameOf(SnapshotReady([]))
  const FINISH := FrameOf(SnapshotFinish)
  const EARLY := FrameOf(InputResult(1, Written, None, None))

  const FIRST := Inflight(Entry(0, Resize(SIZE), RESIZE_BODY_BYTES, None, 0, None), 1, 1)
  const SECOND := Inflight(Entry(1, Resize(SIZE), RESIZE_BODY_BYTES, None, 0, None), 2, 1)

  // ---------------------------------------------------------------------------
  // The run in four parts.
  // ---------------------------------------------------------------------------

  const OPEN: seq<Event> := [EvBindReader, EvSubscribe(0), EvAttachResume(1)]
  const ATTACH: seq<Event> := [EvArrive(1, ATTACHED), EvDispatch(0, 0)]
  const RESTORE: seq<Event> := [EvArrive(1, READY), EvDispatch(0, 0), EvStartInstall(0), EvReaderDone(0, ReaderReady)]
  const COMPLETE: seq<Event> := [EvArrive(1, FINISH), EvDispatch(0, 0)]
  const ANSWERED: seq<Event> := [EvResize(SIZE), EvArrive(1, EARLY), EvDispatch(0, 0)]
  const SENDING: seq<Event> := [EvChainRun(1), EvSendDone(1), EvChainRun(1)]

  function RunOf(): seq<Event> { OPEN + ATTACH + RESTORE + COMPLETE + ANSWERED + SENDING }

  // ---------------------------------------------------------------------------
  // The states between the parts.
  // ---------------------------------------------------------------------------

  const LIFE := Life({0}, false, false, 1, false, 0, 1, Some(Stream(1, 0, false)), Some(AttachTask(1, Opening)),
                     0, None, None, 0, 0, [Held(0, 1)], [], [])

  const WAITING_SCREEN := Hydration(0, 1, [], 0, None, false, false, false, false, false, true)

  const OPENED := Plane(LIFE, Route(false, None, None, Some(WAITING_SCREEN), 1, true, 0, map[], [], [Segment(1, [], false)], [], []),
                        EMPTY_INPUT)

  function AttachedRoute(hydration: Hydration, arrivals: seq<StreamEvent>, finished: bool): Route {
    Route(true, Some(7), Some(0), Some(hydration), 1, true, 0, map[0 := IDLE_QUEUE], arrivals, [Segment(1, [], finished)], [], [])
  }

  const RESTORED := WAITING_SCREEN.(readyReceived := true, armed := true)
  const COMPLETED := RESTORED.(historyIncomplete := true, completed := true, armed := false)

  lemma Opens()
    ensures Run(Initial(false), OPEN) == OPENED
  {
    RunThree(Initial(false), EvBindReader, EvSubscribe(0), EvAttachResume(1));
  }

  lemma StepsAre(p: Plane, e: Event)
    ensures e.EvArrive? ==> Step(p, e) == Arrive(p, e.tag, e.event)
    ensures e.EvDispatch? ==> Step(p, e) == Dispatch(p, e.queue, e.now)
  {
    hide Arrive, Dispatch;
  }

  lemma Arrives(p: Plane, event: StreamEvent, now: nat)
    requires p.life == LIFE && p.route.queueId == 0 && p.route.Queue(0) == IDLE_QUEUE
    ensures var route := p.route.(arrivals := p.route.arrivals + [event], queues := p.route.queues[0 := IDLE_QUEUE]);
      Run(p, [EvArrive(1, event), EvDispatch(0, now)])
      == HandleArrival(p.(route := route), 0, Arrival(|p.route.arrivals|, 1, event), now)
  {
    hide HandleArrival, Step, Arrive, Dispatch;
    RunTwo(p, EvArrive(1, event), EvDispatch(0, now));
    StepsAre(p, EvArrive(1, event));
    ArrivesIdle(p, event);
    var arrived := Arrive(p, 1, event);
    StepsAre(arrived, EvDispatch(0, now));
    DispatchesOne(arrived, Arrival(|p.route.arrivals|, 1, event), now);
    assert arrived.route.queues[0 := IDLE_QUEUE] == p.route.queues[0 := IDLE_QUEUE];
  }

  lemma ArrivesIdle(p: Plane, event: StreamEvent)
    requires p.life == LIFE && p.route.queueId == 0 && p.route.Queue(0) == IDLE_QUEUE
    ensures Arrive(p, 1, event) == p.(route := p.route.(arrivals := p.route.arrivals + [event],
      queues := p.route.queues[0 := EventQueue([Arrival(|p.route.arrivals|, 1, event)], None)]))
  {
    assert p.life.openings[0].generation == 1;
    assert [] + [Arrival(|p.route.arrivals|, 1, event)] == [Arrival(|p.route.arrivals|, 1, event)];
  }

  lemma DispatchesOne(p: Plane, arrival: Arrival, now: nat)
    requires p.route.Queue(0) == EventQueue([arrival], None)
    ensures Dispatch(p, 0, now) == HandleArrival(p.(route := p.route.(queues := p.route.queues[0 := IDLE_QUEUE])), 0, arrival, now)
  {
    hide HandleArrival;
    assert [arrival][1..] == [];
  }

  function At(hydration: Hydration, arrivals: seq<StreamEvent>, finished: bool, input: Input): Plane {
    Plane(LIFE, AttachedRoute(hydration, arrivals, finished), input)
  }

  lemma Attaches()
    ensures Run(OPENED, ATTACH) == At(WAITING_SCREEN, [ATTACHED], false, EMPTY_INPUT)
  {
    hide Run;
    Arrives(OPENED, ATTACHED, 0);
  }

  lemma Restores()
    ensures Run(At(WAITING_SCREEN, [ATTACHED], false, EMPTY_INPUT), RESTORE)
         == At(RESTORED, [ATTACHED, READY], false, EMPTY_INPUT)
  {
    hide Run;
    var p := At(WAITING_SCREEN, [ATTACHED], false, EMPTY_INPUT);
    Arrives(p, READY, 0);
    var install := EventQueue([], Some(Install(0, 1, true, false)));
    var installing := p.(route := p.route.(arrivals := [ATTACHED, READY], queues := map[0 := install]));
    assert map[0 := IDLE_QUEUE][0 := install] == map[0 := install];
    assert [ATTACHED] + [READY] == [ATTACHED, READY];
    assert Run(p, [EvArrive(1, READY), EvDispatch(0, 0)]) == installing;
    Reads(installing);
    RunAppend(p, [EvArrive(1, READY), EvDispatch(0, 0)], [EvStartInstall(0), EvReaderDone(0, ReaderReady)]);
    assert RESTORE == [EvArrive(1, READY), EvDispatch(0, 0)] + [EvStartInstall(0), EvReaderDone(0, ReaderReady)];
  }

  lemma Reads(p: Plane)
    requires p.life == LIFE && p.route.hydration == Some(WAITING_SCREEN)
    requires p.route.queues == map[0 := EventQueue([], Some(Install(0, 1, true, false)))]
    ensures Run(p, [EvStartInstall(0), EvReaderDone(0, ReaderReady)])
         == p.(route := p.route.(queues := map[0 := IDLE_QUEUE], hydration := Some(RESTORED)))
  {
    RunTwo(p, EvStartInstall(0), EvReaderDone(0, ReaderReady));
    var reading := EventQueue([], Some(Install(0, 1, true, true)));
    assert p.route.queues[0 := reading][0 := IDLE_QUEUE] == map[0 := IDLE_QUEUE];
  }

  lemma Completes()
    ensures Run(At(RESTORED, [ATTACHED, READY], false, EMPTY_INPUT), COMPLETE)
         == At(COMPLETED, [ATTACHED, READY, FINISH], true, EMPTY_INPUT)
  {
    hide Run;
    Arrives(At(RESTORED, [ATTACHED, READY], false, EMPTY_INPUT), FINISH, 0);
    assert [ATTACHED, READY] + [FINISH] == [ATTACHED, READY, FINISH];
  }

  // ---------------------------------------------------------------------------
  // The RESIZE, its early answer, and both sends.
  // ---------------------------------------------------------------------------

  const GATE := Gate(1, true, Some(1), true, true)

  /** Appended: in the slot, in flight, waiting in the chain. */
  const APPENDED := EMPTY_INPUT.(
    nextTicket := 1, nextOperationId := 2, inflight := [FIRST], chains := map[1 := [Job(FIRST, Waiting)]],
    desired := Some(SIZE), geometryOperation := Some(0))

  /** Answered before it was sent: the pump appends another RESIZE behind it. */
  const REPLACED := EMPTY_INPUT.(
    nextTicket := 2, nextOperationId := 3, inflight := [SECOND],
    chains := map[1 := [Job(FIRST, Waiting), Job(SECOND, Waiting)]],
    desired := Some(SIZE), geometryOperation := Some(1),
    outcomes := [Outcome(FIRST.entry, Some(1), 1, Written, None, None)])

  const BOTH_SENT := REPLACED.(
    chains := map[1 := [Job(SECOND, Sending(0))]],
    wires := map[1 := [WireFrame(FIRST, Data(0)), WireFrame(SECOND, Data(0))]],
    sent := Some(SIZE))

  lemma Appends()
    ensures Pump(EMPTY_INPUT.(desired := Some(SIZE)), GATE) == APPENDED
  {
    var none: seq<Job> := [];
    assert none + [Job(FIRST, Waiting)] == [Job(FIRST, Waiting)];
    var window: seq<Inflight> := [];
    assert window + [FIRST] == [FIRST];
    assert SendGeometry(EMPTY_INPUT.(desired := Some(SIZE)), GATE) == APPENDED;
  }

  lemma Replaces()
    ensures SettleResult(APPENDED, GATE, 1, Written, None, None, 0) == REPLACED
  {
    var freed := Record(APPENDED, GATE, FIRST, Written, None, None, 0);
    assert freed.inflight == [];
    assert [Job(FIRST, Waiting)] + [Job(SECOND, Waiting)] == [Job(FIRST, Waiting), Job(SECOND, Waiting)];
    assert APPENDED.chains[1 := [Job(FIRST, Waiting), Job(SECOND, Waiting)]] == REPLACED.chains;
  }

  lemma Moved(first: Job, rest: seq<Job>, chains: map<nat, seq<Job>>, job: Job, wires: map<nat, seq<WireFrame>>, wire: seq<WireFrame>)
    requires chains == map[1 := [first] + rest] && Of(wires, 1) == wire && wires.Keys <= {1}
    ensures chains[1 := [job] + Of(chains, 1)[1..]] == map[1 := [job] + rest]
    ensures chains[1 := Of(chains, 1)[1..]] == map[1 := rest]
    ensures forall frame :: wires[1 := wire + [frame]] == map[1 := wire + [frame]]
  {
    assert Of(chains, 1)[1..] == rest;
  }

  lemma SendsBoth()
    ensures ChainRun(TerminalInput.SendDone(ChainRun(REPLACED, GATE, 1), 1), GATE, 1) == BOTH_SENT
  {
    var none: seq<WireFrame> := [];
    var last: seq<Job> := [];
    var waiting := [Job(SECOND, Waiting)];
    assert [Job(FIRST, Waiting)] + waiting == [Job(FIRST, Waiting), Job(SECOND, Waiting)];
    Moved(Job(FIRST, Waiting), waiting, REPLACED.chains, Job(FIRST, Sending(0)), map[], none);
    assert none + [WireFrame(FIRST, Data(0))] == [WireFrame(FIRST, Data(0))];
    var one := ChainRun(REPLACED, GATE, 1);
    assert one == REPLACED.(chains := map[1 := [Job(FIRST, Sending(0))] + waiting], wires := map[1 := [WireFrame(FIRST, Data(0))]]);
    Moved(Job(FIRST, Sending(0)), waiting, one.chains, Job(FIRST, Failed), one.wires, [WireFrame(FIRST, Data(0))]);
    var two := TerminalInput.SendDone(one, 1);
    assert two == one.(chains := map[1 := waiting]);
    assert waiting == waiting + last && [Job(SECOND, Sending(0))] + last == [Job(SECOND, Sending(0))];
    Moved(Job(SECOND, Waiting), last, two.chains, Job(SECOND, Sending(0)), two.wires, [WireFrame(FIRST, Data(0))]);
    assert [WireFrame(FIRST, Data(0))] + [WireFrame(SECOND, Data(0))] == [WireFrame(FIRST, Data(0)), WireFrame(SECOND, Data(0))];
  }

  lemma Answers()
    ensures Run(At(COMPLETED, [ATTACHED, READY, FINISH], true, EMPTY_INPUT), ANSWERED)
         == At(COMPLETED, [ATTACHED, READY, FINISH, EARLY], true, REPLACED)
  {
    hide Run, Pump, SettleResult, EMPTY_INPUT, APPENDED, REPLACED;
    var p := At(COMPLETED, [ATTACHED, READY, FINISH], true, EMPTY_INPUT);
    var q := At(COMPLETED, [ATTACHED, READY, FINISH], true, APPENDED);
    Resized(p);
    Arrives(q, EARLY, 0);
    Replaces();
    assert [ATTACHED, READY, FINISH] + [EARLY] == [ATTACHED, READY, FINISH, EARLY];
    RunAppend(p, [EvResize(SIZE)], [EvArrive(1, EARLY), EvDispatch(0, 0)]);
    assert ANSWERED == [EvResize(SIZE)] + [EvArrive(1, EARLY), EvDispatch(0, 0)];
  }

  lemma Resized(p: Plane)
    requires p == At(COMPLETED, [ATTACHED, READY, FINISH], true, EMPTY_INPUT)
    ensures Run(p, [EvResize(SIZE)]) == p.(input := APPENDED)
  {
    hide Run, Pump;
    RunOne(p, EvResize(SIZE));
    Appends();
  }

  lemma Sends()
    ensures Run(At(COMPLETED, [ATTACHED, READY, FINISH, EARLY], true, REPLACED), SENDING)
         == At(COMPLETED, [ATTACHED, READY, FINISH, EARLY], true, BOTH_SENT)
  {
    hide Run, ChainRun, TerminalInput.SendDone, REPLACED, BOTH_SENT;
    var p := At(COMPLETED, [ATTACHED, READY, FINISH, EARLY], true, REPLACED);
    RunThree(p, EvChainRun(1), EvSendDone(1), EvChainRun(1));
    SendsBoth();
  }

  /** Answering a RESIZE before it was sent makes the stream see the same geometry twice in a row. */
  lemma EarlyResultRepeatsGeometry()
    ensures !AllPrompt(Initial(false), RunOf())
    ensures exists n: nat :: n < |RunOf()| && StaleAt(false, RunOf(), n)
    ensures Resizes(Run(Initial(false), RunOf()).input.Wire(1)) == [SIZE, SIZE]
  {
    hide Run, Step, BOTH_SENT, AllPrompt, StaleAt;
    Opens();
    Attaches();
    Restores();
    Completes();
    Answers();
    Sends();
    RunAppend(Initial(false), OPEN, ATTACH);
    RunAppend(Initial(false), OPEN + ATTACH, RESTORE);
    RunAppend(Initial(false), OPEN + ATTACH + RESTORE, COMPLETE);
    RunAppend(Initial(false), OPEN + ATTACH + RESTORE + COMPLETE, ANSWERED);
    RunAppend(Initial(false), OPEN + ATTACH + RESTORE + COMPLETE + ANSWERED, SENDING);
    TwoSizes();
    if forall n: nat :: n < |RunOf()| ==> !StaleAt(false, RunOf(), n) { HeldStartsSuffice(false, RunOf(), 1); }
    if AllPrompt(Initial(false), RunOf()) {
      forall n: nat | n < |RunOf()| ensures !StaleAt(false, RunOf(), n) { PromptSuffices(false, RunOf(), n); }
    }
  }

  lemma TwoSizes()
    ensures Resizes(BOTH_SENT.Wire(1)) == [SIZE, SIZE] && !NoRepeats([SIZE, SIZE])
  {
    var wire := [WireFrame(FIRST, Data(0)), WireFrame(SECOND, Data(0))];
    var none: seq<WireFrame> := [];
    ResizesStep(none, WireFrame(FIRST, Data(0)));
    assert none + [WireFrame(FIRST, Data(0))] == [WireFrame(FIRST, Data(0))];
    ResizesStep([WireFrame(FIRST, Data(0))], WireFrame(SECOND, Data(0)));
    assert wire == [WireFrame(FIRST, Data(0))] + [WireFrame(SECOND, Data(0))];
    assert BOTH_SENT.Wire(1) == wire;
    assert [SIZE] + [SIZE] == [SIZE, SIZE];
    assert [SIZE, SIZE][1] == [SIZE, SIZE][0];
  }

  // ---------------------------------------------------------------------------
  // The wrong geometry stays.
  // ---------------------------------------------------------------------------

  const OTHER := Geometry(30, 100, 800, 480)
  const LATER := Inflight(Entry(1, Resize(OTHER), RESIZE_BODY_BYTES, None, 0, None), 2, 1)
  const ANSWER := FrameOf(InputResult(2, Written, None, None))

  const SEND_FIRST: seq<Event> := [EvResize(SIZE), EvChainRun(1), EvSendDone(1)]
  const ANSWER_FIRST: seq<Event> := [EvArrive(1, EARLY), EvDispatch(0, 0)]
  const WAVER: seq<Event> := [EvResize(OTHER), EvResize(SIZE)]
  const ANSWER_EARLY: seq<Event> := [EvArrive(1, ANSWER), EvDispatch(0, 0)]
  const SEND_LATE: seq<Event> := [EvChainRun(1), EvSendDone(1)]

  /** One size is sent and answered. Another is requested and answered before it was sent, the first is
      requested again, and then the other goes out. */
  function WrongRun(): seq<Event> {
    OPEN + ATTACH + RESTORE + COMPLETE + SEND_FIRST + ANSWER_FIRST + WAVER + ANSWER_EARLY + SEND_LATE
  }

  const FIRST_SENT := APPENDED.(chains := map[1 := []], wires := map[1 := [WireFrame(FIRST, Data(0))]], sent := Some(SIZE))

  const FIRST_ANSWERED := FIRST_SENT.(
    inflight := [], geometryOperation := None, outcomes := [Outcome(FIRST.entry, Some(1), 1, Written, None, None)])

  const WAVERED := FIRST_ANSWERED.(
    nextTicket := 2, nextOperationId := 3, inflight := [LATER], chains := map[1 := [Job(LATER, Waiting)]],
    geometryOperation := Some(1))

  const EARLY_ANSWERED := WAVERED.(
    inflight := [], geometryOperation := None,
    outcomes := [Outcome(FIRST.entry, Some(1), 1, Written, None, None), Outcome(LATER.entry, Some(2), 1, Written, None, None)])

  const WRONG := EARLY_ANSWERED.(
    chains := map[1 := []], wires := map[1 := [WireFrame(FIRST, Data(0)), WireFrame(LATER, Data(0))]])

  lemma SendsFirst()
    ensures TerminalInput.SendDone(ChainRun(APPENDED, GATE, 1), 1) == FIRST_SENT
  {
    var none: seq<WireFrame> := [];
    var last: seq<Job> := [];
    assert [Job(FIRST, Waiting)] + last == [Job(FIRST, Waiting)] && [Job(FIRST, Sending(0))] + last == [Job(FIRST, Sending(0))];
    Moved(Job(FIRST, Waiting), last, APPENDED.chains, Job(FIRST, Sending(0)), map[], none);
    assert none + [WireFrame(FIRST, Data(0))] == [WireFrame(FIRST, Data(0))];
    var one := ChainRun(APPENDED, GATE, 1);
    assert one == FIRST_SENT.(chains := map[1 := [Job(FIRST, Sending(0))]]);
    Moved(Job(FIRST, Sending(0)), last, one.chains, Job(FIRST, Failed), one.wires, [WireFrame(FIRST, Data(0))]);
  }

  lemma AnswersFirst()
    ensures SettleResult(FIRST_SENT, GATE, 1, Written, None, None, 0) == FIRST_ANSWERED
  {
    var window: seq<Inflight> := [];
    assert [FIRST][..0] + [FIRST][1..] == window;
  }

  lemma Wavers()
    ensures Pump(FIRST_ANSWERED.(desired := Some(OTHER)), GATE).(desired := Some(SIZE)) == WAVERED
    ensures Pump(WAVERED, GATE) == WAVERED
  {
    var none: seq<Job> := [];
    var window: seq<Inflight> := [];
    assert none + [Job(LATER, Waiting)] == [Job(LATER, Waiting)] && window + [LATER] == [LATER];
    assert map[1 := none][1 := [Job(LATER, Waiting)]] == map[1 := [Job(LATER, Waiting)]];
  }

  lemma AnswersEarly()
    ensures SettleResult(WAVERED, GATE, 2, Written, None, None, 0) == EARLY_ANSWERED
  {
    var window: seq<Inflight> := [];
    assert [LATER][..0] + [LATER][1..] == window;
  }

  lemma SendsLate()
    ensures TerminalInput.SendDone(ChainRun(EARLY_ANSWERED, GATE, 1), 1) == WRONG
  {
    var sent := [WireFrame(FIRST, Data(0))];
    var last: seq<Job> := [];
    assert [Job(LATER, Waiting)] + last == [Job(LATER, Waiting)] && [Job(LATER, Sending(0))] + last == [Job(LATER, Sending(0))];
    Moved(Job(LATER, Waiting), last, EARLY_ANSWERED.chains, Job(LATER, Sending(0)), EARLY_ANSWERED.wires, sent);
    assert sent + [WireFrame(LATER, Data(0))] == [WireFrame(FIRST, Data(0)), WireFrame(LATER, Data(0))];
    var one := ChainRun(EARLY_ANSWERED, GATE, 1);
    assert one == WRONG.(chains := map[1 := [Job(LATER, Sending(0))]]);
    Moved(Job(LATER, Sending(0)), last, one.chains, Job(LATER, Failed), one.wires, WRONG.Wire(1));
  }

  /** The plane while the screen is live. */
  function Live(arrivals: seq<StreamEvent>, input: Input): Plane { At(COMPLETED, arrivals, true, input) }

  const BEFORE: seq<StreamEvent> := [ATTACHED, READY, FINISH]

  lemma ResizedFirst()
    ensures Run(Live(BEFORE, EMPTY_INPUT), SEND_FIRST) == Live(BEFORE, FIRST_SENT)
  {
    hide Run, ChainRun, TerminalInput.SendDone, APPENDED, FIRST_SENT;
    var p := Live(BEFORE, EMPTY_INPUT);
    Resized(p);
    SendsFirst();
    RunTwo(Live(BEFORE, APPENDED), EvChainRun(1), EvSendDone(1));
    RunAppend(p, [EvResize(SIZE)], [EvChainRun(1), EvSendDone(1)]);
    assert SEND_FIRST == [EvResize(SIZE)] + [EvChainRun(1), EvSendDone(1)];
  }

  lemma Answered(arrivals: seq<StreamEvent>, input: Input, operationId: nat)
    ensures var event := FrameOf(InputResult(operationId, Written, None, None));
      Run(Live(arrivals, input), [EvArrive(1, event), EvDispatch(0, 0)])
      == Live(arrivals + [event], SettleResult(input, GATE, operationId, Written, None, None, 0))
  {
    hide Run, SettleResult;
    Arrives(Live(arrivals, input), FrameOf(InputResult(operationId, Written, None, None)), 0);
  }

  lemma ResizedTwice()
    ensures Run(Live(BEFORE + [EARLY], FIRST_ANSWERED), WAVER) == Live(BEFORE + [EARLY], WAVERED)
  {
    hide Run, Pump, FIRST_ANSWERED, WAVERED;
    var p := Live(BEFORE + [EARLY], FIRST_ANSWERED);
    Wavers();
    RunTwo(p, EvResize(OTHER), EvResize(SIZE));
  }

  lemma SentLate()
    ensures Run(Live(BEFORE + [EARLY] + [ANSWER], EARLY_ANSWERED), SEND_LATE) == Live(BEFORE + [EARLY] + [ANSWER], WRONG)
  {
    hide Run, ChainRun, TerminalInput.SendDone, EARLY_ANSWERED, WRONG;
    SendsLate();
    RunTwo(Live(BEFORE + [EARLY] + [ANSWER], EARLY_ANSWERED), EvChainRun(1), EvSendDone(1));
  }

  /** One early answer is enough for the stream to keep a geometry that nobody wants: everything is sent and
      answered, the record says the latest request was sent, and no RESIZE is due. */
  lemma EarlyResultKeepsWrongGeometry()
    ensures var p := Run(Initial(false), WrongRun());
      && Rests(p) && p.input.inflight == [] && p.input.queued == [] && p.input.Chain(p.life.generation) == []
      && p.input.sent == p.input.desired == Some(SIZE)
      && Resizes(p.input.Wire(p.life.generation)) == [SIZE, OTHER] && SIZE != OTHER
    ensures !LastOfferTrue(false, WrongRun(), 1)
  {
    hide Run, Step, SettleResult, LastOfferTrue, FIRST_SENT, FIRST_ANSWERED, WAVERED, EARLY_ANSWERED, WRONG;
    Opens();
    Attaches();
    Restores();
    Completes();
    ResizedFirst();
    AnswersFirst();
    ResizedTwice();
    AnswersEarly();
    SentLate();
    RunAppend(Initial(false), OPEN, ATTACH);
    RunAppend(Initial(false), OPEN + ATTACH, RESTORE);
    RunAppend(Initial(false), OPEN + ATTACH + RESTORE, COMPLETE);
    RunAppend(Initial(false), OPEN + ATTACH + RESTORE + COMPLETE, SEND_FIRST);
    RunAppend(Initial(false), OPEN + ATTACH + RESTORE + COMPLETE + SEND_FIRST, ANSWER_FIRST);
    Answered(BEFORE, FIRST_SENT, 1);
    RunAppend(Initial(false), OPEN + ATTACH + RESTORE + COMPLETE + SEND_FIRST + ANSWER_FIRST, WAVER);
    RunAppend(Initial(false), OPEN + ATTACH + RESTORE + COMPLETE + SEND_FIRST + ANSWER_FIRST + WAVER, ANSWER_EARLY);
    Answered(BEFORE + [EARLY], WAVERED, 2);
    RunAppend(Initial(false), OPEN + ATTACH + RESTORE + COMPLETE + SEND_FIRST + ANSWER_FIRST + WAVER + ANSWER_EARLY, SEND_LATE);
    WrongSizes();
    LatestWins(false, WrongRun());
  }

  lemma WrongSizes()
    ensures Resizes(WRONG.Wire(1)) == [SIZE, OTHER]
    ensures WRONG.inflight == [] && WRONG.queued == [] && WRONG.Chain(1) == [] && WRONG.sent == WRONG.desired == Some(SIZE)
    ensures forall arrivals :: Rests(Live(arrivals, WRONG))
  {
    var none: seq<WireFrame> := [];
    var first, later := WireFrame(FIRST, Data(0)), WireFrame(LATER, Data(0));
    ResizesStep(none, first);
    assert none + [first] == [first];
    ResizesStep([first], later);
    assert [first, later] == [first] + [later] && WRONG.Wire(1) == [first, later];
    assert [SIZE] + [OTHER] == [SIZE, OTHER];
  }
}
