/** The plugin log view: one page applied to what a reader holds. */
module PluginLogs {
  import opened Arithmetic
  import opened Wrappers

  datatype LogRecord = LogRecord(seqNo: nat, body: string)

  /** One answer of the Hub: `logId` is absent when the package has no log. */
  datatype Page = Page(logId: Option<nat>, firstAvailable: nat, records: seq<LogRecord>)

  datatype Evicted = Evicted(from: nat, to: nat)

  datatype View = View(loaded: bool, logId: Option<nat>, cursor: nat, records: seq<LogRecord>,
                       evicted: seq<Evicted>, restarted: bool)

  datatype Read = Read(afterSeq: nat, reset: bool)

  const EMPTY_VIEW := View(false, None, 0, [], [], false)

  /** Records by ascending number; equal numbers keep their order. */
  function SortBySeq(records: seq<LogRecord>): seq<LogRecord> {
    if records == [] then [] else Insert(SortBySeq(records[..|records| - 1]), records[|records| - 1])
  }

  function Insert(sorted: seq<LogRecord>, record: LogRecord): seq<LogRecord> {
    if sorted == [] || sorted[|sorted| - 1].seqNo <= record.seqNo then sorted + [record]
    else Insert(sorted[..|sorted| - 1], record) + [sorted[|sorted| - 1]]
  }

  function After(records: seq<LogRecord>, cursor: nat): seq<LogRecord> {
    if records == [] then []
    else
      After(records[..|records| - 1], cursor)
      + if records[|records| - 1].seqNo > cursor then [records[|records| - 1]] else []
  }

  function LastSeq(records: seq<LogRecord>, otherwise: nat): nat {
    if records == [] then otherwise else records[|records| - 1].seqNo
  }

  /** The read for opening the view, or for loading newer records. */
  function NextRead(view: View, newer: bool): Read {
    if !newer || !view.loaded then Read(0, false) else Read(view.cursor, false)
  }

  function ViewFromPage(page: Page, restarted: bool): View {
    var records := SortBySeq(page.records);
    View(true, page.logId, MaxInt(LastSeq(records, 0), page.firstAvailable - 1), records,
         if page.firstAvailable > 1 then [Evicted(1, page.firstAvailable - 1)] else [], restarted)
  }

  datatype Applied = Applied(view: View, followUp: Option<Read>)

  function ApplyPage(view: View, page: Page, read: Read): Applied {
    if read.reset then Applied(ViewFromPage(page, view.loaded), None)
    else if !view.loaded then Applied(ViewFromPage(page, false), None)
    else if page.logId != view.logId then Applied(view, Some(Read(0, true)))
    else
      var unread := SortBySeq(After(page.records, view.cursor));
      var evicted := if page.firstAvailable > view.cursor + 1
                     then view.evicted + [Evicted(view.cursor + 1, page.firstAvailable - 1)] else view.evicted;
      var cursor := MaxInt(MaxInt(LastSeq(unread, view.cursor), page.firstAvailable - 1), view.cursor);
      Applied(view.(cursor := cursor, records := view.records + unread, evicted := evicted, restarted := false), None)
  }

  // ---------------------------------------------------------------------------
  // Sorting.
  // ---------------------------------------------------------------------------

  ghost predicate Ascending(records: seq<LogRecord>) {
    forall j, k :: 0 <= j < k < |records| ==> records[j].seqNo < records[k].seqNo
  }

  ghost predicate Ordered(records: seq<LogRecord>) {
    forall j, k :: 0 <= j < k < |records| ==> records[j].seqNo <= records[k].seqNo
  }

  lemma {:induction false} InsertKeeps(sorted: seq<LogRecord>, record: LogRecord)
    ensures multiset(Insert(sorted, record)) == multiset(sorted) + multiset{record}
  {
    if sorted != [] && sorted[|sorted| - 1].seqNo > record.seqNo {
      InsertKeeps(sorted[..|sorted| - 1], record);
      assert sorted == sorted[..|sorted| - 1] + [sorted[|sorted| - 1]];
    }
  }

  lemma OrderedEnd(front: seq<LogRecord>, last: LogRecord)
    requires Ordered(front) && forall r :: r in multiset(front) ==> r.seqNo <= last.seqNo
    ensures Ordered(front + [last])
  {
    assert forall k :: 0 <= k < |front| ==> front[k] in multiset(front);
  }

  lemma {:induction false} InsertSorts(sorted: seq<LogRecord>, record: LogRecord)
    requires Ordered(sorted)
    ensures Ordered(Insert(sorted, record))
  {
    InsertKeeps(sorted, record);
    if sorted != [] && sorted[|sorted| - 1].seqNo > record.seqNo {
      var front, last := sorted[..|sorted| - 1], sorted[|sorted| - 1];
      InsertKeeps(front, record);
      InsertSorts(front, record);
      forall r | r in multiset(Insert(front, record)) ensures r.seqNo <= last.seqNo {
        assert r in front || r == record;
      }
      OrderedEnd(Insert(front, record), last);
    }
  }

  /** Sorting orders the records of a page and loses none. */
  lemma {:induction false} SortSorts(records: seq<LogRecord>)
    ensures Ordered(SortBySeq(records)) && multiset(SortBySeq(records)) == multiset(records)
  {
    if records != [] {
      var front, last := records[..|records| - 1], records[|records| - 1];
      hide Ordered, Insert;
      SortSorts(front);
      InsertSorts(SortBySeq(front), last);
      InsertKeeps(SortBySeq(front), last);
      assert records == front + [last];
    }
  }

  /** Records that arrive in order are already sorted. */
  lemma {:induction false} SortKeeps(records: seq<LogRecord>)
    requires Ordered(records)
    ensures SortBySeq(records) == records
  {
    if records != [] {
      var front, last := records[..|records| - 1], records[|records| - 1];
      OrderedFront(records);
      hide Ordered, Insert;
      SortKeeps(front);
      InsertLast(front, last);
      assert records == front + [last];
    }
  }

  lemma OrderedFront(records: seq<LogRecord>)
    requires Ordered(records) && records != []
    ensures Ordered(records[..|records| - 1])
    ensures |records| > 1 ==> records[|records| - 2].seqNo <= records[|records| - 1].seqNo
  {
  }

  lemma InsertLast(sorted: seq<LogRecord>, record: LogRecord)
    requires sorted != [] ==> sorted[|sorted| - 1].seqNo <= record.seqNo
    ensures Insert(sorted, record) == sorted + [record]
  {
  }

  // ---------------------------------------------------------------------------
  // What a view covers.
  // ---------------------------------------------------------------------------

  ghost predicate Held(records: seq<LogRecord>, n: nat) {
    exists k :: 0 <= k < |records| && records[k].seqNo == n
  }

  ghost predicate Lost(evicted: seq<Evicted>, n: nat) {
    exists k :: 0 <= k < |evicted| && evicted[k].from <= n <= evicted[k].to
  }

  /** Every number up to the cursor is held exactly once or in exactly one evicted range: records ascend
      strictly, ranges are in order and disjoint, and the two never overlap. */
  ghost predicate Covers(records: seq<LogRecord>, evicted: seq<Evicted>, cursor: nat) {
    && Ascending(records)
    && (forall j, k :: 0 <= j < k < |evicted| ==> evicted[j].to < evicted[k].from)
    && (forall k :: 0 <= k < |evicted| ==> 1 <= evicted[k].from <= evicted[k].to <= cursor)
    && (forall k :: 0 <= k < |records| ==> 1 <= records[k].seqNo <= cursor)
    && (forall n :: 1 <= n <= cursor ==> (Held(records, n) <==> !Lost(evicted, n)))
  }

  /** A contiguous run of numbers. */
  ghost predicate Run(records: seq<LogRecord>, start: nat) {
    forall k :: 0 <= k < |records| ==> records[k].seqNo == start + k
  }

  /** What an evicting log answers to a read after `afterSeq`: a run of what it retains, from the first
      unread number on. */
  ghost predicate AnswersRead(page: Page, afterSeq: nat) {
    page.firstAvailable >= 1 && Run(page.records, MaxInt(page.firstAvailable, afterSeq + 1))
  }

  lemma RunOrdered(records: seq<LogRecord>, start: nat)
    requires Run(records, start)
    ensures Ordered(records)
  {
  }

  lemma {:induction false} RunAfter(records: seq<LogRecord>, start: nat, cursor: nat)
    requires Run(records, start) && start > cursor
    ensures After(records, cursor) == records
  {
    if records != [] {
      var front, last := records[..|records| - 1], records[|records| - 1];
      assert last.seqNo > cursor && Run(front, start);
      hide Run;
      RunAfter(front, start, cursor);
      assert records == front + [last];
    }
  }

  lemma NothingCovered()
    ensures Covers([], [], 0)
  {
  }

  /** A gap and a run that follow the cursor extend the coverage. */
  lemma CoversMore(records: seq<LogRecord>, evicted: seq<Evicted>, cursor: nat, first: nat, unread: seq<LogRecord>)
    requires Covers(records, evicted, cursor) && first >= 1 && Run(unread, MaxInt(first, cursor + 1))
    ensures Covers(records + unread,
                   if first > cursor + 1 then evicted + [Evicted(cursor + 1, first - 1)] else evicted,
                   MaxInt(MaxInt(LastSeq(unread, cursor), first - 1), cursor))
  {
    var more := if first > cursor + 1 then evicted + [Evicted(cursor + 1, first - 1)] else evicted;
    var end := MaxInt(MaxInt(LastSeq(unread, cursor), first - 1), cursor);
    var start := MaxInt(first, cursor + 1);
    forall n | 1 <= n <= end ensures Held(records + unread, n) <==> !Lost(more, n) {
      HeldSplits(records, unread, n);
      LostSplits(evicted, cursor, first, n);
      if n > cursor {
        assert !Held(records, n) && !Lost(evicted, n);
        if n >= start { assert unread[n - start].seqNo == n; }
      } else {
        assert !Held(unread, n);
      }
    }
  }

  lemma HeldSplits(a: seq<LogRecord>, b: seq<LogRecord>, n: nat)
    ensures Held(a + b, n) <==> Held(a, n) || Held(b, n)
  {
    if Held(a, n) {
      var k :| 0 <= k < |a| && a[k].seqNo == n;
      assert (a + b)[k].seqNo == n;
    }
    if Held(b, n) {
      var k :| 0 <= k < |b| && b[k].seqNo == n;
      assert (a + b)[|a| + k].seqNo == n;
    }
  }

  lemma LostSplits(evicted: seq<Evicted>, cursor: nat, first: nat, n: nat)
    requires first >= 1
    ensures var more := if first > cursor + 1 then evicted + [Evicted(cursor + 1, first - 1)] else evicted;
      Lost(more, n) <==> Lost(evicted, n) || cursor < n < first
  {
    var more := if first > cursor + 1 then evicted + [Evicted(cursor + 1, first - 1)] else evicted;
    if Lost(evicted, n) {
      var k :| 0 <= k < |evicted| && evicted[k].from <= n <= evicted[k].to;
      assert more[k] == evicted[k];
    }
    if cursor < n < first {
      assert more[|evicted|] == Evicted(cursor + 1, first - 1);
    }
  }

  /** Any first or reset page covers everything up to its cursor. */
  lemma FirstPageCovers(page: Page, restarted: bool)
    requires AnswersRead(page, 0)
    ensures var view := ViewFromPage(page, restarted); Covers(view.records, view.evicted, view.cursor)
    ensures ViewFromPage(page, restarted).records == page.records
  {
    hide Covers, SortBySeq, Ordered, Run;
    NothingCovered();
    RunOrdered(page.records, MaxInt(page.firstAvailable, 1));
    SortKeeps(page.records);
    CoversMore([], [], 0, page.firstAvailable, page.records);
    assert [] + page.records == page.records;
    assert [] + [Evicted(1, page.firstAvailable - 1)] == [Evicted(1, page.firstAvailable - 1)];
  }

  /** A page of the held log, read at the cursor, keeps the coverage and appends only what it holds. */
  lemma NextPageCovers(view: View, page: Page, read: Read)
    requires view.loaded && !read.reset && page.logId == view.logId && read.afterSeq == view.cursor
    requires Covers(view.records, view.evicted, view.cursor) && AnswersRead(page, view.cursor)
    ensures var next := ApplyPage(view, page, read).view;
      Covers(next.records, next.evicted, next.cursor) && next.records == view.records + page.records
  {
    hide Covers, SortBySeq, After, Ordered, Run;
    RunOrdered(page.records, MaxInt(page.firstAvailable, view.cursor + 1));
    RunAfter(page.records, MaxInt(page.firstAvailable, view.cursor + 1), view.cursor);
    SortKeeps(page.records);
    CoversMore(view.records, view.evicted, view.cursor, page.firstAvailable, page.records);
  }

  /** A page of another log than the view's changes nothing but asks for a reset, which then replaces the view and
      says so; the view says so until the next page of that log. */
  lemma RestartIsTold(view: View, page: Page, read: Read)
    ensures view.loaded && !read.reset && page.logId != view.logId ==> ApplyPage(view, page, read) == Applied(view, Some(Read(0, true)))
    ensures read.reset || !view.loaded || page.logId == view.logId ==>
      var applied := ApplyPage(view, page, read);
      && applied.followUp.None? && applied.view.loaded && applied.view.logId == page.logId
      && (applied.view.restarted <==> read.reset && view.loaded)
  {
  }
}
