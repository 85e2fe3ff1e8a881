/** Who owns a plugin log view: the reads, retries and epochs of one view, against logs that append,
    evict and restart while answers are on their way. */
module PluginLogReader {
  import opened Arithmetic
  import opened Wrappers
  import opened PluginLogs

  // ---------------------------------------------------------------------------
  // The reader's own steps.
  // ---------------------------------------------------------------------------

  datatype Reader = Reader(owner: nat, epoch: nat, inFlight: bool, failedRead: Option<Read>, view: View)

  const FIRST_READ := Read(0, false)

  /** A new owner starts empty and opens with one read. The effect before it was cleaned up. */
  function Opened(r: Reader, owner: nat): Reader {
    Reader(owner, r.epoch + 1, true, None, EMPTY_VIEW)
  }

  function Closed(r: Reader): Reader { r.(epoch := r.epoch + 1, inFlight := false) }

  /** The read "Load newer" sends, unless one is in flight. */
  function NewerRead(r: Reader): Option<Read> {
    if r.inFlight then None else Some(NextRead(r.view, true))
  }

  function RetryRead(r: Reader): Option<Read> { if r.inFlight then None else r.failedRead }

  function Sending(r: Reader, read: Option<Read>): Reader { if read.Some? then r.(inFlight := true) else r }

  /** A page for a read of `epoch` arrives. */
  function Landed(r: Reader, epoch: nat, read: Read, page: Page): Reader {
    if epoch != r.epoch then r
    else
      var applied := ApplyPage(r.view, page, read);
      r.(view := applied.view, failedRead := None, inFlight := applied.followUp.Some?)
  }

  function FollowUp(r: Reader, epoch: nat, read: Read, page: Page): Option<Read> {
    if epoch != r.epoch then None else ApplyPage(r.view, page, read).followUp
  }

  function RefusedBy(r: Reader, epoch: nat, read: Read): Reader {
    if epoch != r.epoch then r else r.(inFlight := false, failedRead := Some(read))
  }

  // ---------------------------------------------------------------------------
  // The world around it.
  // ---------------------------------------------------------------------------

  /** A package's log: everything ever written, of which the numbers from `first` on are retained. */
  datatype Log = Log(owner: nat, history: seq<string>, first: nat)

  /** A read on its way; `answer` is the page the Hub made for it. */
  datatype Request = Request(owner: nat, epoch: nat, read: Read, answer: Option<Page>)

  /** `current` is the log of each owner that has one; a restart gives it a new log. */
  datatype World = World(reader: Reader, pending: seq<Request>, logs: seq<Log>, current: map<nat, nat>)

  const INITIAL := World(Reader(0, 0, false, None, EMPTY_VIEW), [], [], map[])

  datatype Event =
    | EvOpen(owner: nat)
    | EvClose
    | EvLoadNewer(caller: nat)
    | EvRetry(caller: nat)
    | EvServe(k: nat, count: nat)
    | EvLand(k: nat)
    | EvRefuse(k: nat)
    | EvAppend(owner: nat, body: string)
    | EvEvict(owner: nat, first: nat)
    | EvRestart(owner: nat)
    | EvRemove(owner: nat)

  /** A run of what the log retains after `afterSeq`, at most `count` records. */
  function Retained(log: Log, afterSeq: nat, count: nat): seq<LogRecord>
    requires log.first >= 1
  {
    var start: nat := MaxInt(log.first, afterSeq + 1);
    var available: nat := if start <= |log.history| then |log.history| - start + 1 else 0;
    var n: nat := if count < available then count else available;
    seq(n, k requires 0 <= k < n => LogRecord(start + k, log.history[start + k - 1]))
  }

  function Served(w: World, q: Request, count: nat): Page
    requires LogsOk(w.logs, w.current)
  {
    if q.owner !in w.current then Page(None, 1, [])
    else
      var log := w.logs[w.current[q.owner]];
      Page(Some(w.current[q.owner]), log.first, Retained(log, q.read.afterSeq, count))
  }

  predicate LogsOk(logs: seq<Log>, current: map<nat, nat>) {
    && (forall k :: 0 <= k < |logs| ==> 1 <= logs[k].first <= |logs[k].history| + 1)
    && (forall owner :: owner in current ==> current[owner] < |logs| && logs[current[owner]].owner == owner)
  }

  function Send(w: World, reader: Reader, caller: nat, read: Option<Read>): World {
    w.(reader := reader,
       pending := if read.Some? then w.pending + [Request(caller, reader.epoch, read.value, None)] else w.pending)
  }

  function Step(w: World, e: Event): (w': World)
    requires LogsOk(w.logs, w.current)
    ensures LogsOk(w'.logs, w'.current)
  {
    var r := w.reader;
    match e
    case EvOpen(owner) => Send(w, Opened(r, owner), owner, Some(FIRST_READ))
    case EvClose => w.(reader := Closed(r))
    case EvLoadNewer(caller) => Send(w, Sending(r, NewerRead(r)), caller, NewerRead(r))
    case EvRetry(caller) => Send(w, Sending(r, RetryRead(r)), caller, RetryRead(r))
    case EvServe(k, count) =>
      if k >= |w.pending| || w.pending[k].answer.Some? then w
      else w.(pending := w.pending[k := w.pending[k].(answer := Some(Served(w, w.pending[k], count)))])
    case EvLand(k) =>
      if k >= |w.pending| || w.pending[k].answer.None? then w
      else
        var q := w.pending[k];
        Send(w.(pending := w.pending[..k] + w.pending[k + 1..]), Landed(r, q.epoch, q.read, q.answer.value),
             q.owner, FollowUp(r, q.epoch, q.read, q.answer.value))
    case EvRefuse(k) =>
      if k >= |w.pending| then w
      else w.(reader := RefusedBy(r, w.pending[k].epoch, w.pending[k].read), pending := w.pending[..k] + w.pending[k + 1..])
    case EvAppend(owner, body) =>
      if owner !in w.current then w
      else
        var id := w.current[owner];
        w.(logs := w.logs[id := w.logs[id].(history := w.logs[id].history + [body])])
    case EvEvict(owner, first) =>
      if owner !in w.current || first < w.logs[w.current[owner]].first || first > |w.logs[w.current[owner]].history| + 1 then w
      else
        var id := w.current[owner];
        w.(logs := w.logs[id := w.logs[id].(first := first)])
    case EvRestart(owner) => w.(logs := w.logs + [Log(owner, [], 1)], current := w.current[owner := |w.logs|])
    case EvRemove(owner) => w.(current := w.current - {owner})
  }

  // ---------------------------------------------------------------------------
  // The invariant.
  // ---------------------------------------------------------------------------

  /** A read the present view may apply: a reset from the start, or one at the cursor. */
  ghost predicate ReadOk(view: View, read: Read) {
    read.afterSeq == if read.reset || !view.loaded then 0 else view.cursor
  }

  /** Records that are, number by number, what log `id` holds. */
  ghost predicate ContentOf(records: seq<LogRecord>, id: Option<nat>, logs: seq<Log>) {
    match id
    case None => records == []
    case Some(n) =>
      && n < |logs|
      && forall k :: 0 <= k < |records| ==>
           1 <= records[k].seqNo <= |logs[n].history| && records[k].body == logs[n].history[records[k].seqNo - 1]
  }

  predicate Owned(id: Option<nat>, owner: nat, logs: seq<Log>) {
    id.Some? ==> id.value < |logs| && logs[id.value].owner == owner
  }

  ghost predicate ViewOk(view: View, logs: seq<Log>) {
    if !view.loaded then view == EMPTY_VIEW
    else Covers(view.records, view.evicted, view.cursor) && ContentOf(view.records, view.logId, logs)
  }

  ghost predicate RequestOk(q: Request, logs: seq<Log>) {
    q.answer.Some? ==>
      && AnswersRead(q.answer.value, q.read.afterSeq) && ContentOf(q.answer.value.records, q.answer.value.logId, logs)
      && Owned(q.answer.value.logId, q.owner, logs)
  }

  /** A request of the current epoch may be applied. */
  ghost predicate CurrentOk(q: Request, r: Reader) {
    q.epoch <= r.epoch && (q.epoch == r.epoch ==> r.inFlight && ReadOk(r.view, q.read))
  }

  /** At most one read of the current epoch is pending. */
  ghost predicate OneCurrent(pending: seq<Request>, epoch: nat) {
    forall j, k :: 0 <= j < k < |pending| ==> pending[j].epoch != epoch || pending[k].epoch != epoch
  }

  ghost predicate WorldOk(w: World) {
    && LogsOk(w.logs, w.current)
    && (forall k :: 0 <= k < |w.pending| ==> RequestOk(w.pending[k], w.logs) && CurrentOk(w.pending[k], w.reader))
    && OneCurrent(w.pending, w.reader.epoch)
    && (w.reader.failedRead.Some? ==> ReadOk(w.reader.view, w.reader.failedRead.value))
    && ViewOk(w.reader.view, w.logs)
  }

  /** The view is the present owner's, and so is every read of the current epoch. */
  predicate OwnersOk(w: World) {
    && (w.reader.view.loaded ==> Owned(w.reader.view.logId, w.reader.owner, w.logs))
    && forall k :: 0 <= k < |w.pending| && w.pending[k].epoch == w.reader.epoch ==> w.pending[k].owner == w.reader.owner
  }

  /** A callback kept from an earlier render of another owner that does send a read. */
  predicate Stray(w: World, e: Event) {
    match e
    case EvLoadNewer(caller) => caller != w.reader.owner && !w.reader.inFlight
    case EvRetry(caller) => caller != w.reader.owner && !w.reader.inFlight && w.reader.failedRead.Some?
    case _ => false
  }

  /** Logs only append: what held of their content still holds. */
  ghost predicate LogsGrow(logs: seq<Log>, logs': seq<Log>) {
    && |logs| <= |logs'|
    && forall k :: 0 <= k < |logs| ==> logs'[k].owner == logs[k].owner && logs[k].history <= logs'[k].history
  }

  lemma ContentStays(records: seq<LogRecord>, id: Option<nat>, logs: seq<Log>, logs': seq<Log>)
    requires ContentOf(records, id, logs) && LogsGrow(logs, logs')
    ensures ContentOf(records, id, logs')
  {
    if id.Some? {
      assert logs[id.value].history <= logs'[id.value].history;
    }
  }

  lemma LogsMoveOk(w: World, logs: seq<Log>, current: map<nat, nat>)
    requires WorldOk(w) && LogsOk(logs, current) && LogsGrow(w.logs, logs)
    ensures WorldOk(w.(logs := logs, current := current))
  {
    hide ContentOf, Covers, AnswersRead;
    forall k | 0 <= k < |w.pending| ensures RequestOk(w.pending[k], logs) {
      var q := w.pending[k];
      assert RequestOk(q, w.logs);
      if q.answer.Some? { ContentStays(q.answer.value.records, q.answer.value.logId, w.logs, logs); }
    }
    if w.reader.view.loaded { ContentStays(w.reader.view.records, w.reader.view.logId, w.logs, logs); }
  }

  lemma ServedOk(w: World, q: Request, count: nat)
    requires LogsOk(w.logs, w.current)
    ensures RequestOk(q.(answer := Some(Served(w, q, count))), w.logs)
  {
  }

  lemma ServeOk(w: World, k: nat, count: nat)
    requires WorldOk(w)
    ensures WorldOk(Step(w, EvServe(k, count)))
  {
    hide RequestOk, ViewOk, Served;
    if k < |w.pending| { ServedOk(w, w.pending[k], count); }
  }

  /** A pending read leaves; what remains is of older epochs if it was the current one. */
  lemma RequestLeaves(w: World, k: nat)
    requires WorldOk(w) && k < |w.pending|
    ensures WorldOk(w.(pending := w.pending[..k] + w.pending[k + 1..]))
    ensures w.pending[k].epoch == w.reader.epoch ==>
      forall q :: q in w.pending[..k] + w.pending[k + 1..] ==> q.epoch < w.reader.epoch
  {
    hide RequestOk, ViewOk;
    var rest := w.pending[..k] + w.pending[k + 1..];
    assert forall j :: 0 <= j < |rest| ==> rest[j] == w.pending[if j < k then j else j + 1];
  }

  /** No read of the current epoch is pending: the reader may move within its epoch. */
  lemma ReaderMoves(w: World, r: Reader)
    requires WorldOk(w) && r.epoch >= w.reader.epoch
    requires forall q :: q in w.pending ==> q.epoch < r.epoch
    requires r.failedRead.Some? ==> ReadOk(r.view, r.failedRead.value)
    requires ViewOk(r.view, w.logs)
    ensures WorldOk(w.(reader := r))
  {
    hide RequestOk, ViewOk, ReadOk;
    forall k | 0 <= k < |w.pending| ensures CurrentOk(w.pending[k], r) && w.pending[k].epoch < r.epoch {
      assert w.pending[k] in w.pending;
    }
  }

  /** Sending one applicable read when none of the epoch is pending. */
  lemma SendOk(w: World, r: Reader, caller: nat, read: Read)
    requires WorldOk(w.(reader := r)) && r.inFlight && ReadOk(r.view, read)
    requires forall q :: q in w.pending ==> q.epoch < r.epoch
    ensures WorldOk(Send(w, r, caller, Some(read)))
  {
    hide RequestOk, ViewOk, ReadOk, CurrentOk;
    var q := Request(caller, r.epoch, read, None);
    Unanswered(q, w.logs);
    assert CurrentOk(q, r) by { NewIsCurrent(q, r); }
    var pending := w.pending + [q];
    forall j, k | 0 <= j < k < |pending| ensures pending[j].epoch != r.epoch || pending[k].epoch != r.epoch {
      assert w.pending[j] in w.pending;
    }
  }

  lemma Unanswered(q: Request, logs: seq<Log>)
    requires q.answer.None?
    ensures RequestOk(q, logs)
  {
  }

  lemma NewIsCurrent(q: Request, r: Reader)
    requires q.epoch == r.epoch && r.inFlight && ReadOk(r.view, q.read)
    ensures CurrentOk(q, r)
  {
  }

  lemma NoneCurrent(w: World)
    requires WorldOk(w) && !w.reader.inFlight
    ensures forall q :: q in w.pending ==> q.epoch < w.reader.epoch
  {
    hide RequestOk, ViewOk;
  }

  lemma OpenOk(w: World, owner: nat)
    requires WorldOk(w)
    ensures WorldOk(Step(w, EvOpen(owner)))
  {
    hide RequestOk, Covers, ContentOf;
    var r := Opened(w.reader, owner);
    assert forall q :: q in w.pending ==> q.epoch < r.epoch;
    ReaderMoves(w, r);
    SendOk(w, r, owner, FIRST_READ);
  }

  lemma CloseOk(w: World)
    requires WorldOk(w)
    ensures WorldOk(Step(w, EvClose))
  {
    hide RequestOk, Covers, ContentOf;
    assert forall q :: q in w.pending ==> q.epoch < Closed(w.reader).epoch;
    ReaderMoves(w, Closed(w.reader));
  }

  lemma AskOk(w: World, caller: nat, read: Option<Read>)
    requires WorldOk(w) && (read.Some? ==> !w.reader.inFlight && ReadOk(w.reader.view, read.value))
    ensures WorldOk(Send(w, Sending(w.reader, read), caller, read))
  {
    hide RequestOk, ViewOk, ReadOk;
    if read.Some? {
      NoneCurrent(w);
      ReaderMoves(w, Sending(w.reader, read));
      SendOk(w, Sending(w.reader, read), caller, read.value);
    }
  }

  lemma RefuseOk(w: World, k: nat)
    requires WorldOk(w)
    ensures WorldOk(Step(w, EvRefuse(k)))
  {
    hide RequestOk, ViewOk, ReadOk;
    if k < |w.pending| {
      RequestLeaves(w, k);
      var rest := w.(pending := w.pending[..k] + w.pending[k + 1..]);
      if w.pending[k].epoch == w.reader.epoch {
        assert CurrentOk(w.pending[k], w.reader);
        ReaderMoves(rest, RefusedBy(w.reader, w.pending[k].epoch, w.pending[k].read));
      }
    }
  }

  /** The applied page keeps the view whole and of one log; a follow-up starts again from 0. */
  lemma AppliedOk(view: View, logs: seq<Log>, q: Request)
    requires ViewOk(view, logs) && RequestOk(q, logs) && q.answer.Some? && ReadOk(view, q.read)
    ensures var applied := ApplyPage(view, q.answer.value, q.read);
      && ViewOk(applied.view, logs)
      && (applied.followUp.Some? ==> !q.read.reset && ReadOk(applied.view, applied.followUp.value))
  {
    hide Covers, SortBySeq, After, AnswersRead;
    var page := q.answer.value;
    if q.read.reset || !view.loaded {
      FirstPageCovers(page, if q.read.reset then view.loaded else false);
    } else if page.logId == view.logId {
      NextPageCovers(view, page, q.read);
    }
  }

  lemma LandOk(w: World, k: nat)
    requires WorldOk(w)
    ensures WorldOk(Step(w, EvLand(k)))
  {
    hide RequestOk, ViewOk, ReadOk, ApplyPage;
    if k < |w.pending| && w.pending[k].answer.Some? {
      var q := w.pending[k];
      RequestLeaves(w, k);
      var rest := w.(pending := w.pending[..k] + w.pending[k + 1..]);
      if q.epoch == w.reader.epoch {
        assert CurrentOk(q, w.reader) && RequestOk(q, w.logs);
        AppliedOk(w.reader.view, w.logs, q);
        var r := Landed(w.reader, q.epoch, q.read, q.answer.value);
        ReaderMoves(rest, r);
        if FollowUp(w.reader, q.epoch, q.read, q.answer.value).Some? {
          SendOk(rest, r, q.owner, FollowUp(w.reader, q.epoch, q.read, q.answer.value).value);
        }
      }
    }
  }

  lemma StepOk(w: World, e: Event)
    requires WorldOk(w)
    ensures WorldOk(Step(w, e))
  {
    hide RequestOk, Covers, ContentOf, OneCurrent, CurrentOk;
    match e {
      case EvOpen(owner) => OpenOk(w, owner);
      case EvClose => CloseOk(w);
      case EvLoadNewer(caller) => AskOk(w, caller, NewerRead(w.reader));
      case EvRetry(caller) => AskOk(w, caller, RetryRead(w.reader));
      case EvServe(k, count) => ServeOk(w, k, count);
      case EvLand(k) => LandOk(w, k);
      case EvRefuse(k) => RefuseOk(w, k);
      case EvAppend(_, _) => LogsMoveOk(w, Step(w, e).logs, w.current);
      case EvEvict(_, _) => LogsMoveOk(w, Step(w, e).logs, w.current);
      case EvRestart(_) => LogsMoveOk(w, Step(w, e).logs, Step(w, e).current);
      case EvRemove(_) => LogsMoveOk(w, w.logs, Step(w, e).current);
    }
  }

  // ---------------------------------------------------------------------------
  // Ownership.
  // ---------------------------------------------------------------------------

  lemma AppliedOwned(view: View, page: Page, read: Read, owner: nat, logs: seq<Log>)
    requires (view.loaded ==> Owned(view.logId, owner, logs)) && Owned(page.logId, owner, logs)
    ensures Owned(ApplyPage(view, page, read).view.logId, owner, logs)
  {
  }

  lemma LandOwners(w: World, k: nat)
    requires WorldOk(w) && OwnersOk(w)
    ensures OwnersOk(Step(w, EvLand(k)))
  {
    hide ApplyPage, Covers, ContentOf, AnswersRead, ReadOk;
    if k < |w.pending| && w.pending[k].answer.Some? {
      var q := w.pending[k];
      var rest := w.pending[..k] + w.pending[k + 1..];
      assert forall j :: 0 <= j < |rest| ==> rest[j] == w.pending[if j < k then j else j + 1];
      if q.epoch == w.reader.epoch {
        assert RequestOk(q, w.logs);
        AppliedOwned(w.reader.view, q.answer.value, q.read, w.reader.owner, w.logs);
      }
    }
  }

  lemma RefuseOwners(w: World, k: nat)
    requires OwnersOk(w) && LogsOk(w.logs, w.current)
    ensures OwnersOk(Step(w, EvRefuse(k)))
  {
    if k < |w.pending| {
      var rest := w.pending[..k] + w.pending[k + 1..];
      assert forall j :: 0 <= j < |rest| ==> rest[j] == w.pending[if j < k then j else j + 1];
    }
  }

  lemma AskOwnersIff(w: World, caller: nat, read: Option<Read>)
    requires OwnersOk(w)
    ensures OwnersOk(Send(w, Sending(w.reader, read), caller, read)) <==> read.None? || caller == w.reader.owner
  {
    if read.Some? {
      var v := Send(w, Sending(w.reader, read), caller, read);
      assert v.pending[|w.pending|] == Request(caller, w.reader.epoch, read.value, None);
    }
  }

  /** Ownership is kept by every event but one: it breaks exactly when a stray callback sends a read. */
  lemma OwnersIff(w: World, e: Event)
    requires WorldOk(w) && OwnersOk(w)
    ensures OwnersOk(Step(w, e)) <==> !Stray(w, e)
  {
    hide RequestOk, ViewOk, ReadOk, OneCurrent, CurrentOk, Served;
    match e {
      case EvLoadNewer(caller) => AskOwnersIff(w, caller, NewerRead(w.reader));
      case EvRetry(caller) => AskOwnersIff(w, caller, RetryRead(w.reader));
      case EvLand(k) => LandOwners(w, k);
      case EvRefuse(k) => RefuseOwners(w, k);
      case EvOpen(_) => OldEpochs(w);
      case EvClose => OldEpochs(w);
      case _ =>
    }
  }

  lemma OldEpochs(w: World)
    requires WorldOk(w)
    ensures forall k :: 0 <= k < |w.pending| ==> w.pending[k].epoch <= w.reader.epoch
  {
    hide RequestOk, ViewOk, ReadOk;
  }

  // ---------------------------------------------------------------------------
  // Every run.
  // ---------------------------------------------------------------------------

  function Steps(w: World, events: seq<Event>): (v: World)
    requires LogsOk(w.logs, w.current)
    ensures LogsOk(v.logs, v.current)
    decreases |events|
  {
    if events == [] then w else Step(Steps(w, events[..|events| - 1]), events[|events| - 1])
  }

  function Reached(events: seq<Event>): (w: World)
    ensures LogsOk(w.logs, w.current)
  {
    Steps(INITIAL, events)
  }

  lemma {:induction false} RunOk(events: seq<Event>)
    ensures WorldOk(Reached(events))
    decreases |events|
  {
    hide Step;
    if events != [] {
      RunOk(events[..|events| - 1]);
      StepOk(Reached(events[..|events| - 1]), events[|events| - 1]);
    }
  }

  /** For any interleaving of appends, evictions, restarts and reads, stray callbacks included: the view is of
      one log, each record held is that log's, and every number up to the cursor is held exactly once or in
      exactly one reported evicted range. */
  lemma CoverageOverRuns(events: seq<Event>)
    requires Reached(events).reader.view.loaded
    ensures var view, logs := Reached(events).reader.view, Reached(events).logs;
      && Covers(view.records, view.evicted, view.cursor)
      && (view.logId.None? ==> view.records == [])
      && (view.logId.Some? ==>
            && view.logId.value < |logs|
            && forall k :: 0 <= k < |view.records| ==>
                 var record := view.records[k];
                 1 <= record.seqNo <= |logs[view.logId.value].history|
                 && record.body == logs[view.logId.value].history[record.seqNo - 1])
  {
    RunOk(events);
  }

  /** One read of the current epoch at a time, at the cursor or a reset from 0, retries included. */
  lemma ReadsOverRuns(events: seq<Event>, k: nat)
    requires k < |Reached(events).pending| && Reached(events).pending[k].epoch == Reached(events).reader.epoch
    ensures var w := Reached(events);
      && w.reader.inFlight
      && w.pending[k].read.afterSeq == (if w.pending[k].read.reset || !w.reader.view.loaded then 0 else w.reader.view.cursor)
      && forall j :: 0 <= j < |w.pending| && j != k ==> w.pending[j].epoch < w.reader.epoch
  {
    RunOk(events);
    var w := Reached(events);
    assert CurrentOk(w.pending[k], w.reader);
    forall j | 0 <= j < |w.pending| && j != k ensures w.pending[j].epoch < w.reader.epoch {
      assert CurrentOk(w.pending[j], w.reader);
    }
  }

  predicate StraysAt(events: seq<Event>, n: nat)
    requires n < |events|
  {
    Stray(Reached(events[..n]), events[n])
  }

  /** In every state of a run the view and the reads of the current epoch are the present owner's, if and
      only if no callback of the run was stray. */
  lemma OwnersOverRunsIff(events: seq<Event>)
    ensures (forall n: nat :: n <= |events| ==> OwnersOk(Reached(events[..n])))
       <==> (forall n: nat :: n < |events| ==> !StraysAt(events, n))
  {
    hide OwnersOk, Stray, Step;
    if forall n: nat :: n < |events| ==> !StraysAt(events, n) {
      forall n: nat | n <= |events| ensures OwnersOk(Reached(events[..n])) { OwnersUpTo(events, n); }
    }
    if forall n: nat :: n <= |events| ==> OwnersOk(Reached(events[..n])) {
      forall n: nat | n < |events| ensures !StraysAt(events, n) {
        assert OwnersOk(Reached(events[..n])) && OwnersOk(Reached(events[..n + 1]));
        NextReached(events, n);
        RunOk(events[..n]);
        OwnersIff(Reached(events[..n]), events[n]);
      }
    }
  }

  lemma NextReached(events: seq<Event>, n: nat)
    requires n < |events|
    ensures Reached(events[..n + 1]) == Step(Reached(events[..n]), events[n])
  {
    hide Step;
    assert events[..n + 1][..n] == events[..n];
  }

  lemma {:induction false} OwnersUpTo(events: seq<Event>, n: nat)
    requires n <= |events| && forall m: nat :: m < n ==> !StraysAt(events, m)
    ensures OwnersOk(Reached(events[..n]))
  {
    hide Stray, Step;
    if n == 0 {
      NoOwners();
    } else {
      OwnersUpTo(events, n - 1);
      RunOk(events[..n - 1]);
      NextReached(events, n - 1);
      assert !StraysAt(events, n - 1);
      OwnersIff(Reached(events[..n - 1]), events[n - 1]);
    }
  }

  lemma NoOwners()
    ensures OwnersOk(Reached([]))
  {
  }

  /** An answer of an older epoch changes nothing the reader holds, and asks for nothing. */
  lemma StaleAnswerIgnored(w: World, k: nat)
    requires LogsOk(w.logs, w.current) && k < |w.pending| && w.pending[k].epoch != w.reader.epoch
    ensures Step(w, EvLand(k)).reader == w.reader && Step(w, EvRefuse(k)).reader == w.reader
    ensures |Step(w, EvLand(k)).pending| <= |w.pending|
  {
  }

  /** A reset read never asks for another read: follow-ups are at most one deep. */
  lemma ResetNeverChains(w: World, k: nat)
    requires LogsOk(w.logs, w.current) && k < |w.pending| && w.pending[k].answer.Some? && w.pending[k].read.reset
    ensures |Step(w, EvLand(k)).pending| == |w.pending| - 1
  {
  }

  // ---------------------------------------------------------------------------
  // One read after another.
  // ---------------------------------------------------------------------------

  /** A read of the current epoch that is refused is kept, and a retry sends the very same one again. */
  lemma RefusedIsRetried(w: World, k: nat)
    requires LogsOk(w.logs, w.current) && k < |w.pending| && w.pending[k].epoch == w.reader.epoch
    ensures var v := Step(Step(w, EvRefuse(k)), EvRetry(w.reader.owner));
      && v.pending == w.pending[..k] + w.pending[k + 1..] + [Request(w.reader.owner, w.reader.epoch, w.pending[k].read, None)]
      && v.reader.inFlight && v.reader.view == w.reader.view
  {
  }

  /** A page of the current epoch is applied, and unless it asks for a reset the next "Load newer" sends a read at
      the cursor it left; while a read is in flight neither callback sends any. */
  lemma LandedThenNewer(w: World, k: nat)
    requires LogsOk(w.logs, w.current) && k < |w.pending| && w.pending[k].epoch == w.reader.epoch && w.pending[k].answer.Some?
    ensures var v := Step(w, EvLand(k));
      var applied := ApplyPage(w.reader.view, w.pending[k].answer.value, w.pending[k].read);
      && v.reader.view == applied.view && v.reader.failedRead.None?
      && (applied.followUp.None? ==>
            Step(v, EvLoadNewer(v.reader.owner)).pending == v.pending
              + [Request(v.reader.owner, v.reader.epoch, Read(if v.reader.view.loaded then v.reader.view.cursor else 0, false), None)])
  {
  }

  lemma OneAtATime(w: World, caller: nat)
    requires LogsOk(w.logs, w.current) && w.reader.inFlight
    ensures Step(w, EvLoadNewer(caller)) == w && Step(w, EvRetry(caller)) == w
  {
  }

  /** Once the reader closes, no read on its way is of its epoch: none of their answers changes the view. */
  lemma ClosedIgnoresAll(events: seq<Event>, k: nat)
    requires k < |Reached(events + [EvClose]).pending|
    ensures var w := Reached(events + [EvClose]);
      w.pending[k].epoch != w.reader.epoch && Step(w, EvLand(k)).reader == w.reader && !w.reader.inFlight
  {
    hide WorldOk;
    RunOk(events);
    OldEpochs(Reached(events));
    assert (events + [EvClose])[..|events|] == events;
    StaleAnswerIgnored(Reached(events + [EvClose]), k);
  }

  // ---------------------------------------------------------------------------
  // What a stray callback does.
  // ---------------------------------------------------------------------------

  /** A read is answered and its page lands. */
  function Answer(k: nat): seq<Event> { [EvServe(k, 1), EvLand(k)] }

  lemma Answered(w: World, pending: seq<Request>, q: Request)
    requires LogsOk(w.logs, w.current) && w.pending == pending + [q] && q.answer.None? && q.epoch == w.reader.epoch
    ensures var page := Served(w, q, 1);
      Steps(w, Answer(|pending|)) == Send(w.(pending := pending), Landed(w.reader, q.epoch, q.read, page), q.owner,
                                          FollowUp(w.reader, q.epoch, q.read, page))
  {
    hide Step;
    var k := |pending|;
    AnsweredSteps(w, pending, q);
    assert Answer(k)[..1] == [EvServe(k, 1)] && [EvServe(k, 1)][..0] == [];
    assert Steps(w, [EvServe(k, 1)]) == Step(w, EvServe(k, 1));
  }

  lemma AnsweredSteps(w: World, pending: seq<Request>, q: Request)
    requires LogsOk(w.logs, w.current) && w.pending == pending + [q] && q.answer.None? && q.epoch == w.reader.epoch
    ensures var page := Served(w, q, 1);
      Step(Step(w, EvServe(|pending|, 1)), EvLand(|pending|))
      == Send(w.(pending := pending), Landed(w.reader, q.epoch, q.read, page), q.owner, FollowUp(w.reader, q.epoch, q.read, page))
  {
    hide ApplyPage, Served, LogsOk, Landed, FollowUp;
    var k := |pending|;
    var served := Step(w, EvServe(k, 1));
    assert served.pending == pending + [q.(answer := Some(Served(w, q, 1)))];
    assert served.pending[..k] + served.pending[k + 1..] == pending;
  }

  /** The first record a log retains. */
  function FirstOf(log: Log): LogRecord
    requires 1 <= log.first <= |log.history|
  {
    LogRecord(log.first, log.history[log.first - 1])
  }

  lemma OneSorted(record: LogRecord)
    ensures SortBySeq([record]) == [record]
  {
    SortKeeps([record]);
  }

  lemma FirstServed(w: World, q: Request)
    requires LogsOk(w.logs, w.current) && q.read.afterSeq == 0
    requires q.owner in w.current && w.logs[w.current[q.owner]].first <= |w.logs[w.current[q.owner]].history|
    ensures var log := w.logs[w.current[q.owner]]; Served(w, q, 1) == Page(Some(w.current[q.owner]), log.first, [FirstOf(log)])
  {
  }

  /** A read from the start of an owner's log fills a view that is empty, or is being reset. */
  lemma FirstAnswer(w: World, q: Request, view: View)
    requires LogsOk(w.logs, w.current) && q.read.afterSeq == 0 && (q.read.reset || !view.loaded)
    requires q.owner in w.current && w.logs[w.current[q.owner]].first <= |w.logs[w.current[q.owner]].history|
    ensures var applied := ApplyPage(view, Served(w, q, 1), q.read);
      && applied.followUp.None? && applied.view.logId == Some(w.current[q.owner])
      && applied.view.records == [FirstOf(w.logs[w.current[q.owner]])]
  {
    hide Served, Retained, Insert;
    FirstServed(w, q);
    OneSorted(FirstOf(w.logs[w.current[q.owner]]));
  }

  /** The stray read and its answer; a view that holds another log asks for a reset, answered too. */
  function Straying(w: World, caller: nat): seq<Event> {
    [EvLoadNewer(caller)] + Answer(|w.pending|) + if w.reader.view.loaded then Answer(|w.pending|) else []
  }

  lemma {:induction false} StepsAppend(w: World, a: seq<Event>, b: seq<Event>)
    requires LogsOk(w.logs, w.current)
    ensures Steps(w, a + b) == Steps(Steps(w, a), b)
    decreases |b|
  {
    hide Step;
    if b == [] {
      assert a + b == a;
    } else {
      assert (a + b)[..|a + b| - 1] == a + b[..|b| - 1];
      StepsAppend(w, a, b[..|b| - 1]);
    }
  }

  /** From any state in which the view and its reads are the present owner's and nothing is in flight, a
      "Load newer" kept from another owner puts a record of that owner's log into the view. */
  lemma StrayLands(w: World, caller: nat)
    requires LogsOk(w.logs, w.current) && OwnersOk(w) && !w.reader.inFlight && caller != w.reader.owner
    requires caller in w.current && w.logs[w.current[caller]].first <= |w.logs[w.current[caller]].history|
    ensures var v := Steps(w, Straying(w, caller));
      && v.reader.owner == w.reader.owner && v.logs == w.logs && v.logs[w.current[caller]].owner == caller
      && v.reader.view.logId == Some(w.current[caller])
      && v.reader.view.records == [FirstOf(w.logs[w.current[caller]])]
  {
    hide Served, ApplyPage, OwnersOk;
    var asked := Step(w, EvLoadNewer(caller));
    var q := Request(caller, w.reader.epoch, NextRead(w.reader.view, true), None);
    assert [EvLoadNewer(caller)][..0] == [];
    assert Steps(w, [EvLoadNewer(caller)]) == asked;
    StepsAppend(w, [EvLoadNewer(caller)], Answer(|w.pending|));
    Answered(asked, w.pending, q);
    if w.reader.view.loaded {
      var landed := Steps(asked, Answer(|w.pending|));
      var again := Request(caller, w.reader.epoch, Read(0, true), None);
      OtherLog(w, caller, asked, q);
      StepsAppend(w, [EvLoadNewer(caller)] + Answer(|w.pending|), Answer(|w.pending|));
      Answered(landed, w.pending, again);
      FirstAnswer(landed, again, landed.reader.view);
    } else {
      assert [EvLoadNewer(caller)] + Answer(|w.pending|) + [] == [EvLoadNewer(caller)] + Answer(|w.pending|);
      FirstAnswer(asked, q, w.reader.view);
    }
  }

  /** The stray page is of another log than the view's. */
  lemma OtherLog(w: World, caller: nat, asked: World, q: Request)
    requires LogsOk(w.logs, w.current) && OwnersOk(w) && w.reader.view.loaded && caller != w.reader.owner && caller in w.current
    requires asked.logs == w.logs && asked.current == w.current && q.owner == caller && !q.read.reset
    ensures ApplyPage(w.reader.view, Served(asked, q, 1), q.read) == Applied(w.reader.view, Some(Read(0, true)))
  {
  }

  // ---------------------------------------------------------------------------
  // The hook, updating its refs.
  // ---------------------------------------------------------------------------

  class PluginLogsHook {
    var owner: nat
    var viewRef: View
    var epochRef: nat
    var inFlightRef: bool
    var failedReadRef: Option<Read>

    ghost function Now(): Reader
      reads this
    {
      Reader(owner, epochRef, inFlightRef, failedReadRef, viewRef)
    }

    constructor ()
      ensures Now() == INITIAL.reader
    {
      owner, viewRef, epochRef, inFlightRef, failedReadRef := 0, EMPTY_VIEW, 0, false, None;
    }

    /** The effect of a new owner; the read it sends. */
    method Open(newOwner: nat) returns (request: Read)
      modifies this
      ensures Now() == Opened(old(Now()), newOwner) && request == FIRST_READ
    {
      owner := newOwner;
      epochRef := epochRef + 1;
      viewRef := EMPTY_VIEW;
      failedReadRef := None;
      inFlightRef := true;
      return NextRead(EMPTY_VIEW, false);
    }

    method Close()
      modifies this
      ensures Now() == Closed(old(Now()))
    {
      epochRef := epochRef + 1;
      inFlightRef := false;
    }

    method LoadNewer() returns (request: Option<Read>)
      modifies this
      ensures request == NewerRead(old(Now())) && Now() == Sending(old(Now()), request)
    {
      if inFlightRef { return None; }
      inFlightRef := true;
      return Some(NextRead(viewRef, true));
    }

    method Retry() returns (request: Option<Read>)
      modifies this
      ensures request == RetryRead(old(Now())) && Now() == Sending(old(Now()), request)
    {
      if inFlightRef || failedReadRef.None? { return None; }
      inFlightRef := true;
      return failedReadRef;
    }

    /** A page arrives; the read it still asks for. */
    method Land(epoch: nat, read: Read, page: Page) returns (followUp: Option<Read>)
      modifies this
      ensures Now() == Landed(old(Now()), epoch, read, page) && followUp == FollowUp(old(Now()), epoch, read, page)
    {
      if epoch != epochRef { return None; }
      var applied := ApplyPage(viewRef, page, read);
      viewRef := applied.view;
      failedReadRef := None;
      if applied.followUp.None? {
        inFlightRef := false;
      } else {
        inFlightRef := true;
      }
      return applied.followUp;
    }

    method Refuse(epoch: nat, read: Read)
      modifies this
      ensures Now() == RefusedBy(old(Now()), epoch, read)
    {
      if epoch != epochRef { return; }
      inFlightRef := false;
      failedReadRef := Some(read);
    }
  }
}
