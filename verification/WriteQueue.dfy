/** The write-behind queue as a step machine: pushes, flushes that start and later succeed or
    fail as a whole, timer callbacks, callbacks waiting on a flush, and the shutdown drain. */
module WriteQueue {
  import opened Wrappers

  const MAX_FLUSH_RETRIES := 10

  /** A queued update. `tag` is its position in the order of pushes, which the program does
      not store; a capture id may be pushed many times. */
  datatype Entry = Entry(tag: nat, captureId: int)

  /** The flush in progress: none, a batch at the store, or one that has its outcome (or found
      nothing to write) while its promise has not settled yet, so that others still wait. */
  datatype Flight = Idle | Settling | Batch(items: seq<Entry>)

  /** Queue fields, the callers that wait for the flush under way and those whose flush has
      settled and who run next, then the record of what happened to every entry. */
  datatype Queue = Queue(
    flushBatch: int, maxDepth: int,
    queue: seq<Entry>, flight: Flight, flushTimer: bool, retryTimer: bool,
    retries: int, droppedCount: int, waiting: nat, ready: nat,
    pushed: seq<Entry>, persisted: seq<Entry>,
    overflowed: seq<Entry>, drained: seq<Entry>, exhausted: seq<Entry>)

  function Fresh(flushBatch: int, maxDepth: int): Queue {
    Queue(flushBatch, maxDepth, [], Idle, false, false, 0, 0, 0, 0, [], [], [], [], [])
  }

  function InFlight(q: Queue): seq<Entry> {
    if q.flight.Batch? then q.flight.items else []
  }

  // ------------------------------------------------------------ operations

  function StartFlush(q: Queue): Queue {
    if q.queue == [] then q.(flushTimer := false, flight := Settling)
    else q.(flushTimer := false, flight := Batch(q.queue), queue := [])
  }

  /** At most one flush at a time; a second caller waits for the first. */
  function GuardedFlush(q: Queue): Queue {
    if q.flight != Idle then q.(waiting := q.waiting + 1) else StartFlush(q)
  }

  function DropOldest(q: Queue): Queue {
    if |q.queue| >= q.maxDepth && q.queue != []
    then q.(queue := q.queue[1..], droppedCount := q.droppedCount + 1, overflowed := q.overflowed + [q.queue[0]])
    else q
  }

  function Push(q: Queue, captureId: int): Queue {
    var e := Entry(|q.pushed|, captureId);
    var q1 := q.(queue := q.queue + [e], pushed := q.pushed + [e]);
    if |q1.queue| < q.flushBatch && |q1.queue| < q.maxDepth && !q.flushTimer then q1.(flushTimer := true)
    else DropOldest(GuardedFlush(q1.(flushTimer := false)))
  }

  function Succeed(q: Queue): Queue {
    if !q.flight.Batch? then q
    else q.(flight := Settling, persisted := q.persisted + q.flight.items, retryTimer := false, retries := 0)
  }

  /** The store is all-or-nothing: a failed batch goes back to the front of the queue. */
  function Fail(q: Queue): Queue {
    if !q.flight.Batch? then q
    else
      var q1 := q.(flight := Settling, queue := q.flight.items + q.queue, retries := q.retries + 1);
      if q1.retries >= MAX_FLUSH_RETRIES
      then q1.(retries := 0, retryTimer := false, exhausted := q1.exhausted + q1.queue, queue := [])
      else q1.(retryTimer := true)
  }

  function Settle(q: Queue): Queue {
    if q.flight == Settling then q.(flight := Idle, ready := q.ready + q.waiting, waiting := 0) else q
  }

  function FlushTimerFires(q: Queue): Queue { GuardedFlush(q.(flushTimer := false)) }

  function RetryTimerFires(q: Queue): Queue { GuardedFlush(q.(retryTimer := false)) }

  /** A caller whose flush has settled tries again, if there is still something to write and
      nobody else has started. */
  function Continue(q: Queue): Queue {
    if q.ready == 0 then q
    else
      var q1 := q.(ready := q.ready - 1);
      if q.queue != [] && q.flight == Idle then GuardedFlush(q1) else q1
  }

  function DrainForShutdown(q: Queue): Queue {
    q.(flushTimer := false, retryTimer := false, queue := [],
       droppedCount := q.droppedCount + |q.queue|, drained := q.drained + q.queue)
  }

  /** The program's object. A flush is split where it awaits the store. */
  class WriteBehindQueue {
    const flushBatch: int
    const queueMaxDepth: int
    var queue: seq<Entry>
    var flight: Flight
    var flushTimer: bool
    var retryTimer: bool
    var flushRetryCount: int
    var droppedCount: int
    var waiting: nat
    var ready: nat
    ghost var pushed: seq<Entry>
    ghost var persisted: seq<Entry>
    ghost var overflowed: seq<Entry>
    ghost var drained: seq<Entry>
    ghost var exhausted: seq<Entry>
    var pushes: nat

    ghost function State(): Queue
      reads this
    {
      Queue(flushBatch, queueMaxDepth, queue, flight, flushTimer, retryTimer, flushRetryCount, droppedCount,
            waiting, ready, pushed, persisted, overflowed, drained, exhausted)
    }

    ghost predicate Tagged()
      reads this
    {
      pushes == |pushed|
    }

    constructor (flushBatch: int, queueMaxDepth: int)
      ensures Tagged() && State() == Fresh(flushBatch, queueMaxDepth)
    {
      this.flushBatch, this.queueMaxDepth := flushBatch, queueMaxDepth;
      queue, flight, flushTimer, retryTimer, flushRetryCount, droppedCount, waiting, ready := [], Idle, false, false, 0, 0, 0, 0;
      pushed, persisted, overflowed, drained, exhausted, pushes := [], [], [], [], [], 0;
    }

    method QueueUpdate(captureId: int)
      requires Tagged()
      modifies this
      ensures Tagged() && State() == Push(old(State()), captureId)
    {
      var e := Entry(pushes, captureId);
      pushes := pushes + 1;
      pushed := pushed + [e];
      queue := queue + [e];
      var shouldFlush := |queue| >= flushBatch || |queue| >= queueMaxDepth;
      if !shouldFlush && !flushTimer {
        flushTimer := true;
        return;
      }
      if flushTimer { flushTimer := false; }
      GuardedFlushNow();
      ShedOldest();
    }

    method ShedOldest()
      modifies this`queue, this`overflowed, this`droppedCount
      ensures State() == DropOldest(old(State()))
    {
      if |queue| >= queueMaxDepth && |queue| > 0 {
        overflowed := overflowed + [queue[0]];
        queue := queue[1..];
        droppedCount := droppedCount + 1;
      }
    }

    method GuardedFlushNow()
      modifies this`flushTimer, this`flight, this`queue, this`waiting
      ensures State() == GuardedFlush(old(State()))
    {
      if flight != Idle {
        waiting := waiting + 1;
        return;
      }
      flushTimer := false;
      if |queue| == 0 {
        flight := Settling;
        return;
      }
      flight := Batch(queue);
      queue := [];
    }

    /** Returns the entries that the listener, if any, is told about: the batch just written. */
    method FlushSucceeded() returns (announced: seq<Entry>)
      requires flight.Batch?
      modifies this`flight, this`persisted, this`retryTimer, this`flushRetryCount
      ensures State() == Succeed(old(State()))
      ensures persisted == old(persisted) + announced
    {
      announced := flight.items;
      persisted := persisted + flight.items;
      if retryTimer { retryTimer := false; }
      flushRetryCount := 0;
      flight := Settling;
    }

    method FlushFailed()
      requires flight.Batch?
      modifies this`flight, this`queue, this`retryTimer, this`flushRetryCount, this`exhausted
      ensures State() == Fail(old(State()))
    {
      queue := flight.items + queue;
      flushRetryCount := flushRetryCount + 1;
      if flushRetryCount >= MAX_FLUSH_RETRIES {
        flushRetryCount := 0;
        if retryTimer { retryTimer := false; }
        exhausted := exhausted + queue;
        queue := [];
      } else {
        retryTimer := true;
      }
      flight := Settling;
    }

    method FlushSettled()
      requires flight.Settling?
      modifies this`flight, this`waiting, this`ready
      ensures State() == Settle(old(State()))
    {
      flight := Idle;
      ready, waiting := ready + waiting, 0;
    }

    method FlushTimerCallback()
      modifies this`flushTimer, this`flight, this`queue, this`waiting
      ensures State() == FlushTimerFires(old(State()))
    {
      flushTimer := false;
      GuardedFlushNow();
    }

    method RetryTimerCallback()
      modifies this`retryTimer, this`flushTimer, this`flight, this`queue, this`waiting
      ensures State() == RetryTimerFires(old(State()))
    {
      retryTimer := false;
      GuardedFlushNow();
    }

    /** A caller that found a flush under way runs again once that flush has settled. */
    method ContinueAfterFlush()
      requires ready > 0
      modifies this`flushTimer, this`flight, this`queue, this`waiting, this`ready
      ensures State() == Continue(old(State()))
    {
      ready := ready - 1;
      if |queue| > 0 && flight == Idle { GuardedFlushNow(); }
    }

    method Shutdown()
      modifies this`flushTimer, this`retryTimer, this`queue, this`droppedCount, this`drained
      ensures State() == DrainForShutdown(old(State()))
    {
      flushTimer, retryTimer := false, false;
      while |queue| > 0
        invariant drained + queue == old(drained + queue)
        invariant droppedCount + |queue| == old(droppedCount + |queue|)
        invariant !flushTimer && !retryTimer
      {
        drained := drained + [queue[0]];
        queue := queue[1..];
        droppedCount := droppedCount + 1;
      }
      assert drained + queue == drained;
    }
  }

  // ------------------------------------------------------------ runs

  datatype Step =
    | PushStep(captureId: int)
    | SucceedStep
    | FailStep
    | SettleStep
    | FlushTimerStep
    | RetryTimerStep
    | ContinueStep
    | ShutdownStep

  function Apply(q: Queue, s: Step): Queue {
    match s
    case PushStep(id) => Push(q, id)
    case SucceedStep => Succeed(q)
    case FailStep => Fail(q)
    case SettleStep => Settle(q)
    case FlushTimerStep => FlushTimerFires(q)
    case RetryTimerStep => RetryTimerFires(q)
    case ContinueStep => Continue(q)
    case ShutdownStep => DrainForShutdown(q)
  }

  function Run(q: Queue, steps: seq<Step>): Queue {
    if steps == [] then q else Apply(Run(q, steps[..|steps| - 1]), steps[|steps| - 1])
  }

  // ------------------------------------------------------------ order and conservation

  /** What has been written, is being written and waits to be written, in that order. */
  function Line(q: Queue): seq<Entry> {
    q.persisted + InFlight(q) + q.queue
  }

  /** Tags grow from each entry to the next. */
  ghost predicate Increasing(s: seq<Entry>) {
    |s| < 2 || (Increasing(s[..|s| - 1]) && s[|s| - 2].tag < s[|s| - 1].tag)
  }

  lemma {:induction false} IncreasingPairs(s: seq<Entry>)
    ensures Increasing(s) <==> forall i, j :: 0 <= i < j < |s| ==> s[i].tag < s[j].tag
  {
    if |s| >= 2 {
      var init := s[..|s| - 1];
      IncreasingPairs(init);
      if Increasing(s) {
        forall i, j | 0 <= i < j < |s| ensures s[i].tag < s[j].tag {
          assert init[i] == s[i] && init[|s| - 2] == s[|s| - 2];
          if j < |s| - 1 { assert init[j] == s[j]; }
        }
      }
      if forall i, j :: 0 <= i < j < |s| ==> s[i].tag < s[j].tag {
        assert forall i, j :: 0 <= i < j < |init| ==> init[i].tag < init[j].tag;
      }
    }
  }

  lemma IncreasingRemove(s: seq<Entry>, i: nat)
    requires Increasing(s) && i < |s|
    ensures Increasing(s[..i] + s[i + 1..])
  {
    var rest := s[..i] + s[i + 1..];
    IncreasingPairs(s);
    IncreasingPairs(rest);
    forall a, b | 0 <= a < b < |rest| ensures rest[a].tag < rest[b].tag {
      assert rest[a] == s[if a < i then a else a + 1] && rest[b] == s[if b < i then b else b + 1];
    }
  }

  lemma {:induction false} IncreasingPrefix(s: seq<Entry>, n: nat)
    requires Increasing(s) && n <= |s|
    ensures Increasing(s[..n])
  {
    if n < |s| {
      assert s[..|s| - 1][..n] == s[..n];
      if |s| >= 2 { IncreasingPrefix(s[..|s| - 1], n); }
    } else {
      assert s[..n] == s;
    }
  }

  /** What was dropped: by overflow, by the shutdown drain or by exhausted retries. */
  ghost function Gone(q: Queue): multiset<Entry> {
    multiset(q.overflowed) + multiset(q.drained) + multiset(q.exhausted)
  }

  /** The line is an order-preserving subsequence of what was pushed, and every pushed entry
      is once in the line or once among the dropped. */
  ghost predicate Books(line: seq<Entry>, pushed: seq<Entry>, gone: multiset<Entry>) {
    && (forall n :: 0 <= n < |pushed| ==> pushed[n].tag == n)
    && Increasing(line)
    && (forall e :: e in line ==> e.tag < |pushed|)
    && multiset(line) + gone == multiset(pushed)
  }

  ghost predicate Accounted(q: Queue) {
    Books(Line(q), q.pushed, Gone(q)) && q.droppedCount == |q.overflowed| + |q.drained|
  }

  lemma BooksAppend(line: seq<Entry>, pushed: seq<Entry>, gone: multiset<Entry>, e: Entry)
    requires Books(line, pushed, gone) && e.tag == |pushed|
    ensures Books(line + [e], pushed + [e], gone)
  {
    assert (line + [e])[..|line|] == line;
    assert line != [] ==> line[|line| - 1] in line;
  }

  lemma WithoutOne(line: seq<Entry>, i: nat)
    requires i < |line|
    ensures multiset(line) == multiset(line[..i] + line[i + 1..]) + multiset{line[i]}
    ensures forall e :: e in line[..i] + line[i + 1..] ==> e in line
  {
    assert line == line[..i] + [line[i]] + line[i + 1..];
  }

  lemma BooksRemove(line: seq<Entry>, pushed: seq<Entry>, gone: multiset<Entry>, i: nat)
    requires Books(line, pushed, gone) && i < |line|
    ensures Books(line[..i] + line[i + 1..], pushed, gone + multiset{line[i]})
  {
    var rest := line[..i] + line[i + 1..];
    IncreasingRemove(line, i);
    WithoutOne(line, i);
    assert multiset(rest) + (gone + multiset{line[i]}) == multiset(pushed);
  }

  lemma BooksCut(line: seq<Entry>, pushed: seq<Entry>, gone: multiset<Entry>, n: nat)
    requires Books(line, pushed, gone) && n <= |line|
    ensures Books(line[..n], pushed, gone + multiset(line[n..]))
  {
    IncreasingPrefix(line, n);
    assert line == line[..n] + line[n..];
  }

  lemma StartFlushKeepsLine(q: Queue)
    ensures q.flight == Idle ==> Line(StartFlush(q)) == Line(q)
  {
    if q.flight == Idle { assert q.persisted + [] + q.queue == q.persisted + q.queue + []; }
  }

  lemma GuardedFlushAccounted(q: Queue)
    requires Accounted(q)
    ensures Accounted(GuardedFlush(q))
  {
    StartFlushKeepsLine(q);
    assert Line(GuardedFlush(q)) == Line(q) && Gone(GuardedFlush(q)) == Gone(q);
  }

  /** Timers, retries and waiting callbacks play no part in the accounts. */
  lemma SameAccounts(q: Queue, q': Queue)
    requires Accounted(q)
    requires q' == q.(flushTimer := q'.flushTimer, retryTimer := q'.retryTimer, retries := q'.retries, waiting := q'.waiting, ready := q'.ready)
    ensures Accounted(q')
  {
    assert Line(q') == Line(q) && Gone(q') == Gone(q);
  }

  /** The oldest queued entry leaves the line. */
  lemma BooksDropHead(front: seq<Entry>, queue: seq<Entry>, pushed: seq<Entry>, gone: multiset<Entry>)
    requires queue != [] && Books(front + queue, pushed, gone)
    ensures Books(front + queue[1..], pushed, gone + multiset{queue[0]})
  {
    var line := front + queue;
    BooksRemove(line, pushed, gone, |front|);
    assert line[..|front|] + line[|front| + 1..] == front + queue[1..];
    assert line[|front|] == queue[0];
  }

  lemma DropOldestGone(q: Queue)
    requires |q.queue| >= q.maxDepth && q.queue != []
    ensures Gone(DropOldest(q)) == Gone(q) + multiset{q.queue[0]}
  {
    assert multiset(q.overflowed + [q.queue[0]]) == multiset(q.overflowed) + multiset{q.queue[0]};
  }

  lemma DropOldestBooks(q: Queue)
    requires Books(Line(q), q.pushed, Gone(q))
    requires |q.queue| >= q.maxDepth && q.queue != []
    ensures Books(Line(DropOldest(q)), q.pushed, Gone(DropOldest(q)))
  {
    DropOldestGone(q);
    BooksDropHead(q.persisted + InFlight(q), q.queue, q.pushed, Gone(q));
  }

  lemma DropOldestAccounted(q: Queue)
    requires Accounted(q)
    ensures Accounted(DropOldest(q))
  {
    if |q.queue| >= q.maxDepth && q.queue != [] { DropOldestBooks(q); }
  }

  lemma AppendAccounted(q: Queue, e: Entry)
    requires Accounted(q) && e.tag == |q.pushed|
    ensures Accounted(q.(queue := q.queue + [e], pushed := q.pushed + [e]))
  {
    var q1 := q.(queue := q.queue + [e], pushed := q.pushed + [e]);
    BooksAppend(Line(q), q.pushed, Gone(q), e);
    assert Line(q1) == Line(q) + [e] && Gone(q1) == Gone(q);
  }

  lemma PushAccounted(q: Queue, captureId: int)
    requires Accounted(q)
    ensures Accounted(Push(q, captureId))
  {
    var e := Entry(|q.pushed|, captureId);
    var q1 := q.(queue := q.queue + [e], pushed := q.pushed + [e]);
    AppendAccounted(q, e);
    if |q1.queue| < q.flushBatch && |q1.queue| < q.maxDepth && !q.flushTimer {
      SameAccounts(q1, q1.(flushTimer := true));
      assert Push(q, captureId) == q1.(flushTimer := true);
    } else {
      var q2 := q1.(flushTimer := false);
      SameAccounts(q1, q2);
      GuardedFlushAccounted(q2);
      DropOldestAccounted(GuardedFlush(q2));
      assert Push(q, captureId) == DropOldest(GuardedFlush(q2));
    }
  }

  lemma SucceedAccounted(q: Queue)
    requires Accounted(q)
    ensures Accounted(Succeed(q))
  {
    assert Line(Succeed(q)) == Line(q) && Gone(Succeed(q)) == Gone(q);
  }

  lemma RequeueAccounted(q: Queue)
    requires Accounted(q) && q.flight.Batch?
    ensures Accounted(q.(flight := Settling, queue := q.flight.items + q.queue))
  {
    var q1 := q.(flight := Settling, queue := q.flight.items + q.queue);
    assert Line(q1) == Line(q) && Gone(q1) == Gone(q);
  }

  /** Giving up on everything that waits. */
  lemma ExhaustAccounted(q: Queue)
    requires Accounted(q)
    ensures Accounted(q.(exhausted := q.exhausted + q.queue, queue := []))
  {
    var q' := q.(exhausted := q.exhausted + q.queue, queue := []);
    var front := q.persisted + InFlight(q);
    BooksCut(Line(q), q.pushed, Gone(q), |front|);
    assert Line(q') == Line(q)[..|front|] && Line(q)[|front|..] == q.queue;
    assert multiset(q'.exhausted) == multiset(q.exhausted) + multiset(q.queue);
    assert Gone(q') == Gone(q) + multiset(q.queue);
  }

  lemma FailAccounted(q: Queue)
    requires Accounted(q)
    ensures Accounted(Fail(q))
  {
    if q.flight.Batch? {
      RequeueAccounted(q);
      var q1 := q.(flight := Settling, queue := q.flight.items + q.queue);
      if q.retries + 1 >= MAX_FLUSH_RETRIES {
        ExhaustAccounted(q1);
        SameAccounts(q1.(exhausted := q1.exhausted + q1.queue, queue := []), Fail(q));
      } else {
        SameAccounts(q1, Fail(q));
      }
    }
  }

  lemma ShutdownAccounted(q: Queue)
    requires Accounted(q)
    ensures Accounted(DrainForShutdown(q))
  {
    var q' := DrainForShutdown(q);
    var front := q.persisted + InFlight(q);
    BooksCut(Line(q), q.pushed, Gone(q), |front|);
    assert Line(q') == Line(q)[..|front|] && Line(q)[|front|..] == q.queue;
    assert multiset(q'.drained) == multiset(q.drained) + multiset(q.queue);
    assert Gone(q') == Gone(q) + multiset(q.queue);
  }

  lemma TimersAccounted(q: Queue)
    requires Accounted(q)
    ensures Accounted(FlushTimerFires(q)) && Accounted(RetryTimerFires(q))
  {
    SameAccounts(q, q.(flushTimer := false));
    GuardedFlushAccounted(q.(flushTimer := false));
    SameAccounts(q, q.(retryTimer := false));
    GuardedFlushAccounted(q.(retryTimer := false));
  }

  lemma ContinueAccounted(q: Queue)
    requires Accounted(q)
    ensures Accounted(Continue(q))
  {
    if q.ready > 0 {
      var q1 := q.(ready := q.ready - 1);
      assert Accounted(q1) by { SameAccounts(q, q1); }
      assert Accounted(GuardedFlush(q1)) by { GuardedFlushAccounted(q1); }
      assert Continue(q) == q1 || Continue(q) == GuardedFlush(q1);
    }
  }

  lemma StepAccounted(q: Queue, s: Step)
    requires Accounted(q)
    ensures Accounted(Apply(q, s))
  {
    match s
    case PushStep(id) => PushAccounted(q, id);
    case SucceedStep => SucceedAccounted(q);
    case FailStep => FailAccounted(q);
    case SettleStep => assert Line(Settle(q)) == Line(q) && Gone(Settle(q)) == Gone(q);
    case FlushTimerStep => TimersAccounted(q);
    case RetryTimerStep => TimersAccounted(q);
    case ContinueStep => ContinueAccounted(q);
    case ShutdownStep => ShutdownAccounted(q);
  }

  lemma {:induction false} AccountedOverRuns(flushBatch: int, maxDepth: int, steps: seq<Step>)
    ensures Accounted(Run(Fresh(flushBatch, maxDepth), steps))
  {
    if steps != [] {
      AccountedOverRuns(flushBatch, maxDepth, steps[..|steps| - 1]);
      StepAccounted(Run(Fresh(flushBatch, maxDepth), steps[..|steps| - 1]), steps[|steps| - 1]);
    }
  }

  /** Order and conservation over every run: entries are persisted in push order and at most
      once, each as it was pushed; an entry is missing exactly when it was dropped; and the
      program's drop counter misses exactly the entries lost to exhausted retries. */
  lemma OrderAndConservation(flushBatch: int, maxDepth: int, steps: seq<Step>)
    ensures var q := Run(Fresh(flushBatch, maxDepth), steps);
            && Increasing(q.persisted)
            && (forall e :: e in Line(q) ==> e.tag < |q.pushed| && q.pushed[e.tag] == e)
            && (forall e :: e in q.pushed ==>
                  (e !in Line(q) <==> e in q.overflowed || e in q.drained || e in q.exhausted))
            && |q.pushed| - |Line(q)| == q.droppedCount + |q.exhausted|
  {
    AccountedOverRuns(flushBatch, maxDepth, steps);
    var q := Run(Fresh(flushBatch, maxDepth), steps);
    PersistedIsPrefix(q);
    var line := multiset(Line(q));
    var gone := Gone(q);
    assert line + gone == multiset(q.pushed);
    forall e | e in Line(q) ensures e.tag < |q.pushed| && q.pushed[e.tag] == e {
      assert e in line && e in multiset(q.pushed);
    }
    forall e | e in q.pushed ensures e !in Line(q) <==> e in q.overflowed || e in q.drained || e in q.exhausted {
      PushedOnce(q.pushed, e);
      assert line[e] + gone[e] == 1;
      assert e in Line(q) <==> line[e] > 0;
      assert gone[e] > 0 <==> e in q.overflowed || e in q.drained || e in q.exhausted;
    }
    assert |line| + |gone| == |multiset(q.pushed)|;
  }

  lemma PersistedIsPrefix(q: Queue)
    requires Increasing(Line(q))
    ensures Increasing(q.persisted)
  {
    IncreasingPrefix(Line(q), |q.persisted|);
    assert Line(q)[..|q.persisted|] == q.persisted;
  }

  lemma {:induction false} PushedOnce(pushed: seq<Entry>, e: Entry)
    requires forall n :: 0 <= n < |pushed| ==> pushed[n].tag == n
    requires e in pushed
    ensures multiset(pushed)[e] == 1
  {
    var init, last := pushed[..|pushed| - 1], pushed[|pushed| - 1];
    assert pushed == init + [last];
    if e == last {
      assert e !in init;
    } else {
      PushedOnce(init, e);
    }
  }

  // ------------------------------------------------------------ the buffer bound

  /** Entries the program keeps in memory. */
  function Buffered(q: Queue): int { |InFlight(q)| + |q.queue| }

  /** How full the queue of depth `m` can be after `retries` failures in a row. */
  ghost predicate Bounded(q: Queue, m: int) {
    && q.maxDepth == m >= 1 && 0 <= q.retries < MAX_FLUSH_RETRIES
    && (!q.flight.Batch? ==> |q.queue| <= (q.retries + 1) * m - 1)
    && (q.flight.Batch? ==> |q.queue| <= m - 1 && |InFlight(q)| <= (q.retries + 1) * m)
  }

  lemma Rounds(r: int, m: int)
    requires r >= 0 && m >= 1
    ensures (r + 1) * m >= m && (r + 2) * m == (r + 1) * m + m
  {
  }

  lemma PushBounded(q: Queue, captureId: int, m: int)
    requires Bounded(q, m)
    ensures Bounded(Push(q, captureId), m)
  {
    Rounds(q.retries, m);
  }

  lemma StepBounded(q: Queue, s: Step, m: int)
    requires Bounded(q, m)
    ensures Bounded(Apply(q, s), m)
  {
    Rounds(q.retries, m);
    match s
    case PushStep(id) => PushBounded(q, id, m);
    case _ =>
  }

  lemma {:induction false} BoundedOverRuns(q: Queue, steps: seq<Step>, m: int)
    requires Bounded(q, m)
    ensures Bounded(Run(q, steps), m)
  {
    if steps != [] {
      BoundedOverRuns(q, steps[..|steps| - 1], m);
      StepBounded(Run(q, steps[..|steps| - 1]), steps[|steps| - 1], m);
    }
  }

  lemma BoundedIsFew(q: Queue, m: int)
    requires Bounded(q, m)
    ensures Buffered(q) <= 11 * m - 1
  {
    assert (10 - (q.retries + 1)) * m >= 0;
  }

  /** Across any mix of pushes, failures, retries and exhaustion the program never buffers as
      many as 11 times `queueMaxDepth` entries. */
  lemma BufferBound(flushBatch: int, maxDepth: int, steps: seq<Step>)
    requires maxDepth >= 1
    ensures Buffered(Run(Fresh(flushBatch, maxDepth), steps)) <= 11 * maxDepth - 1
  {
    BoundedOverRuns(Fresh(flushBatch, maxDepth), steps, maxDepth);
    BoundedIsFew(Run(Fresh(flushBatch, maxDepth), steps), maxDepth);
  }

  // ------------------------------------------------------------ the bound is reached

  lemma {:induction false} RunConcat(q: Queue, a: seq<Step>, b: seq<Step>)
    ensures Run(q, a + b) == Run(Run(q, a), b)
  {
    if b == [] { assert a + b == a; }
    else {
      assert (a + b)[..|a + b| - 1] == a + b[..|b| - 1];
      RunConcat(q, a, b[..|b| - 1]);
    }
  }

  lemma RunOne(q: Queue, s: Step)
    ensures Run(q, [s]) == Apply(q, s)
  {
    assert [s][..0] == [];
  }

  /** Pushes during a flush pile up behind it, up to one short of the depth. */
  lemma {:induction false} PileUp(q: Queue, n: nat) returns (steps: seq<Step>)
    requires q.flight.Batch? && |q.queue| + n <= q.maxDepth - 1
    ensures var h := Run(q, steps);
            h.flight == q.flight && |h.queue| == |q.queue| + n && h.retries == q.retries
            && h.maxDepth == q.maxDepth
    decreases n
  {
    if n == 0 {
      steps := [];
    } else {
      var rest := PileUp(q, n - 1);
      RunConcat(q, rest, [PushStep(0)]);
      RunOne(Run(q, rest), PushStep(0));
      steps := rest + [PushStep(0)];
    }
  }

  /** A flush of `size` entries is under way after `r` failures in a row, nothing behind it. */
  ghost predicate Launched(q: Queue, r: int, size: int, m: int) {
    q.flight.Batch? && q.queue == [] && q.retries == r && |q.flight.items| == size && q.maxDepth == m
  }

  /** From a full pile behind a batch, one outcome and one push start a flush of everything. */
  lemma Relaunch(q: Queue, s: Step, r: nat, size: int, m: int) returns (steps: seq<Step>)
    requires Launched(q, r, size, m) && m >= 1
    requires s == SucceedStep || (s == FailStep && r + 1 < MAX_FLUSH_RETRIES)
    ensures Launched(Run(q, steps), if s == FailStep then r + 1 else 0, (if s == FailStep then size else 0) + m, m)
  {
    var pile := PileUp(q, m - 1);
    var q1 := Run(q, pile);
    var q2 := Apply(q1, s);
    steps := pile + ([s] + ([SettleStep] + [PushStep(0)]));
    RunConcat(q, pile, [s] + ([SettleStep] + [PushStep(0)]));
    RunConcat(q1, [s], [SettleStep] + [PushStep(0)]);
    RunOne(q1, s);
    RunConcat(q2, [SettleStep], [PushStep(0)]);
    RunOne(q2, SettleStep);
    RunOne(Apply(q2, SettleStep), PushStep(0));
  }

  lemma NextRound(q: Queue, before: seq<Step>, s: Step, r: nat, size: int, m: int) returns (steps: seq<Step>)
    requires Launched(Run(q, before), r, size, m) && m >= 1
    requires s == SucceedStep || (s == FailStep && r + 1 < MAX_FLUSH_RETRIES)
    ensures Launched(Run(q, steps), if s == FailStep then r + 1 else 0, (if s == FailStep then size else 0) + m, m)
  {
    var more := Relaunch(Run(q, before), s, r, size, m);
    RunConcat(q, before, more);
    steps := before + more;
  }

  /** The size of the batch after `r` failures in a row, each with a full pile behind it. */
  ghost function Load(r: nat, m: int): int {
    if r == 0 then m else Load(r - 1, m) + m
  }

  lemma {:induction false} FailedRounds(q: Queue, start: seq<Step>, r: nat, m: int) returns (steps: seq<Step>)
    requires Launched(Run(q, start), 0, m, m) && m >= 1 && r < MAX_FLUSH_RETRIES
    ensures Launched(Run(q, steps), r, Load(r, m), m)
    decreases r
  {
    if r == 0 {
      steps := start;
    } else {
      var before := FailedRounds(q, start, r - 1, m);
      steps := NextRound(q, before, FailStep, r - 1, Load(r - 1, m), m);
    }
  }

  lemma {:induction false} LoadIsProduct(r: nat, m: int)
    ensures Load(r, m) == (r + 1) * m
  {
    if r > 0 { LoadIsProduct(r - 1, m); }
  }

  lemma NineFailures(flushBatch: int, m: int) returns (steps: seq<Step>)
    requires m >= 1
    ensures Launched(Run(Fresh(flushBatch, m), steps), 9, 10 * m, m)
  {
    var first, size := FirstFlush(flushBatch, m);
    var start := NextRound(Fresh(flushBatch, m), first, SucceedStep, 0, size, m);
    steps := FailedRounds(Fresh(flushBatch, m), start, 9, m);
    LoadIsProduct(9, m);
  }

  lemma FirstFlush(flushBatch: int, m: int) returns (steps: seq<Step>, size: int)
    requires m >= 1
    ensures Launched(Run(Fresh(flushBatch, m), steps), 0, size, m)
  {
    var q := Fresh(flushBatch, m);
    RunOne(q, PushStep(0));
    var q1 := Apply(q, PushStep(0));
    size := 1;
    if q1.flight.Batch? {
      steps := [PushStep(0)];
    } else {
      RunConcat(q, [PushStep(0)], [FlushTimerStep]);
      RunOne(q1, FlushTimerStep);
      steps := [PushStep(0)] + [FlushTimerStep];
    }
  }

  lemma PileOn(q: Queue, before: seq<Step>, r: nat, size: int, m: int) returns (steps: seq<Step>)
    requires Launched(Run(q, before), r, size, m) && m >= 1
    ensures Buffered(Run(q, steps)) == size + m - 1
  {
    var pile := PileUp(Run(q, before), m - 1);
    RunConcat(q, before, pile);
    steps := before + pile;
  }

  /** The bound is exact: for every depth some run buffers 11 times the depth minus one. */
  lemma BufferBoundIsReached(flushBatch: int, maxDepth: int) returns (steps: seq<Step>)
    requires maxDepth >= 1
    ensures Buffered(Run(Fresh(flushBatch, maxDepth), steps)) == 11 * maxDepth - 1
  {
    var rounds := NineFailures(flushBatch, maxDepth);
    steps := PileOn(Fresh(flushBatch, maxDepth), rounds, 9, 10 * maxDepth, maxDepth);
  }

  // ------------------------------------------------------------ what the drop counter misses

  /** The count of failures in a row after a step, from the count `n` before it. */
  function Tally(n: nat, q: Queue, s: Step): nat {
    if !q.flight.Batch? then n
    else if s == SucceedStep then 0
    else if s == FailStep then (if n + 1 >= MAX_FLUSH_RETRIES then 0 else n + 1)
    else n
  }

  /** How many flushes of a batch have failed since the last one that was written or given up. */
  function FailuresInARow(q: Queue, steps: seq<Step>): nat {
    if steps == [] then 0 else Tally(FailuresInARow(q, steps[..|steps| - 1]), Run(q, steps[..|steps| - 1]), steps[|steps| - 1])
  }

  lemma StepTallies(q: Queue, s: Step)
    requires q.retries >= 0 && (q.retryTimer ==> q.retries > 0)
    ensures Apply(q, s).retries == Tally(q.retries, q, s)
    ensures Apply(q, s).retryTimer ==> Apply(q, s).retries > 0
  {
  }

  /** The retry count is the number of failures in a row, and the retry timer is armed only
      after a failure. */
  lemma {:induction false} RetriesCountFailures(flushBatch: int, maxDepth: int, steps: seq<Step>)
    ensures var q := Run(Fresh(flushBatch, maxDepth), steps);
            q.retries == FailuresInARow(Fresh(flushBatch, maxDepth), steps) && (q.retryTimer ==> q.retries > 0)
  {
    if steps != [] {
      RetriesCountFailures(flushBatch, maxDepth, steps[..|steps| - 1]);
      StepTallies(Run(Fresh(flushBatch, maxDepth), steps[..|steps| - 1]), steps[|steps| - 1]);
    }
  }

  predicate GivesUp(q: Queue, s: Step) {
    s == FailStep && q.flight.Batch? && q.retries + 1 >= MAX_FLUSH_RETRIES
  }

  ghost predicate NeverGivesUp(q: Queue, steps: seq<Step>) {
    steps != [] ==> NeverGivesUp(q, steps[..|steps| - 1]) && !GivesUp(Run(q, steps[..|steps| - 1]), steps[|steps| - 1])
  }

  /** No batch fails when nine flushes in a row have failed before it. */
  ghost predicate NeverTenInARow(q: Queue, steps: seq<Step>) {
    steps != [] ==>
      var init := steps[..|steps| - 1];
      && NeverTenInARow(q, init)
      && !(steps[|steps| - 1] == FailStep && Run(q, init).flight.Batch? && FailuresInARow(q, init) == 9)
  }

  lemma {:induction false} GivingUpIsTheTenth(flushBatch: int, maxDepth: int, steps: seq<Step>)
    ensures NeverGivesUp(Fresh(flushBatch, maxDepth), steps) <==> NeverTenInARow(Fresh(flushBatch, maxDepth), steps)
    ensures FailuresInARow(Fresh(flushBatch, maxDepth), steps) <= 9
  {
    if steps != [] {
      GivingUpIsTheTenth(flushBatch, maxDepth, steps[..|steps| - 1]);
      RetriesCountFailures(flushBatch, maxDepth, steps[..|steps| - 1]);
    }
  }

  /** A batch is never empty. */
  ghost predicate Loaded(q: Queue) {
    q.flight.Batch? ==> q.flight.items != []
  }

  lemma StepExhausts(q: Queue, s: Step)
    requires Loaded(q)
    ensures Loaded(Apply(q, s))
    ensures |Apply(q, s).exhausted| >= |q.exhausted|
    ensures |Apply(q, s).exhausted| > |q.exhausted| <==> GivesUp(q, s)
  {
  }

  lemma {:induction false} ExhaustedIff(q: Queue, steps: seq<Step>)
    requires Loaded(q) && q.exhausted == []
    ensures Loaded(Run(q, steps)) && (Run(q, steps).exhausted == [] <==> NeverGivesUp(q, steps))
  {
    if steps != [] {
      ExhaustedIff(q, steps[..|steps| - 1]);
      StepExhausts(Run(q, steps[..|steps| - 1]), steps[|steps| - 1]);
    }
  }

  /** Exactly when the program's drop counter counts every lost entry: when no batch of the run
      fails for the tenth time in a row. */
  lemma CounterIsExactIff(flushBatch: int, maxDepth: int, steps: seq<Step>)
    ensures var q := Run(Fresh(flushBatch, maxDepth), steps);
            q.droppedCount == |q.pushed| - |Line(q)| <==> NeverTenInARow(Fresh(flushBatch, maxDepth), steps)
  {
    OrderAndConservation(flushBatch, maxDepth, steps);
    ExhaustedIff(Fresh(flushBatch, maxDepth), steps);
    GivingUpIsTheTenth(flushBatch, maxDepth, steps);
  }

  /** It does happen: for every depth some run loses ten times the depth uncounted. */
  lemma CounterMissesLosses(flushBatch: int, maxDepth: int) returns (steps: seq<Step>)
    requires maxDepth >= 1
    ensures var q := Run(Fresh(flushBatch, maxDepth), steps);
            |q.pushed| - |Line(q)| >= q.droppedCount + 10 * maxDepth
  {
    var q := Fresh(flushBatch, maxDepth);
    var rounds := NineFailures(flushBatch, maxDepth);
    RunConcat(q, rounds, [FailStep]);
    RunOne(Run(q, rounds), FailStep);
    steps := rounds + [FailStep];
    OrderAndConservation(flushBatch, maxDepth, steps);
  }

  // ------------------------------------------------------------ nothing is left lying

  /** Somebody will flush the queue: a timer, a caller waiting for the flush under way, or one
      who runs next. Behind a batch a retry timer does not count, since a success disarms it. */
  predicate Waker(q: Queue) {
    match q.flight
    case Batch(_) => q.flushTimer || q.waiting > 0
    case Settling => q.flushTimer || q.retryTimer || q.waiting > 0
    case Idle => q.flushTimer || q.retryTimer || q.ready > 0
  }

  /** The same without the flush timer: somebody who flushes before its interval is over. */
  predicate EarlyWaker(q: Queue) {
    match q.flight
    case Batch(_) => q.waiting > 0
    case Settling => q.retryTimer || q.waiting > 0
    case Idle => q.retryTimer || q.ready > 0
  }

  /** How many queued entries no longer wait for the flush timer: a full batch, and never more
      than two, because a push that finds the timer armed flushes. */
  function EnoughToFlush(flushBatch: int): int { Min(2, Max(1, flushBatch)) }

  predicate Attended(q: Queue) {
    && (q.queue != [] ==> Waker(q))
    && (|q.queue| >= EnoughToFlush(q.flushBatch) ==> EarlyWaker(q))
  }

  lemma StepAttended(q: Queue, s: Step)
    requires Attended(q)
    ensures Attended(Apply(q, s))
  {
  }

  lemma {:induction false} AttendedOverRuns(q: Queue, steps: seq<Step>)
    requires Attended(q)
    ensures Attended(Run(q, steps))
  {
    if steps != [] {
      AttendedOverRuns(q, steps[..|steps| - 1]);
      StepAttended(Run(q, steps[..|steps| - 1]), steps[|steps| - 1]);
    }
  }

  /** No entry is left lying: in every run whatever is queued has a timer or a waiting caller
      that will flush it; a full batch, or any second entry, has more than the flush timer. */
  lemma NothingLeftLying(flushBatch: int, maxDepth: int, steps: seq<Step>)
    ensures var q := Run(Fresh(flushBatch, maxDepth), steps);
            && (q.queue != [] ==> Waker(q))
            && (|q.queue| >= Min(2, Max(1, flushBatch)) ==> EarlyWaker(q))
  {
    AttendedOverRuns(Fresh(flushBatch, maxDepth), steps);
    RunKeepsConfig(Fresh(flushBatch, maxDepth), steps);
  }

  lemma {:induction false} RunKeepsConfig(q: Queue, steps: seq<Step>)
    ensures Run(q, steps).flushBatch == q.flushBatch && Run(q, steps).maxDepth == q.maxDepth
  {
    if steps != [] {
      RunKeepsConfig(q, steps[..|steps| - 1]);
      StepKeepsConfig(Run(q, steps[..|steps| - 1]), steps[|steps| - 1]);
    }
  }

  lemma StepKeepsConfig(q: Queue, s: Step)
    ensures Apply(q, s).flushBatch == q.flushBatch && Apply(q, s).maxDepth == q.maxDepth
  {
  }

  /** Each waker does its work: with no flush under way it puts the whole queue in flight. */
  lemma WakersFlush(q: Queue, s: Step)
    requires q.flight == Idle && q.queue != []
    requires s == FlushTimerStep || s == RetryTimerStep || (s == ContinueStep && q.ready > 0)
    ensures Apply(q, s).flight == Batch(q.queue) && Apply(q, s).queue == []
  {
  }

  /** A fired timer is off, and it either waits for the flush under way or starts one of the whole
      queue, which leaves no flush timer armed; with nothing queued that flush is over at once. */
  lemma TimersFireOnce(q: Queue)
    ensures !FlushTimerFires(q).flushTimer && !RetryTimerFires(q).retryTimer
    ensures q.flight != Idle ==>
              FlushTimerFires(q) == q.(flushTimer := false, waiting := q.waiting + 1)
              && RetryTimerFires(q) == q.(retryTimer := false, waiting := q.waiting + 1)
    ensures q.flight == Idle ==>
              forall h :: h in {FlushTimerFires(q), RetryTimerFires(q)} ==>
                h.queue == [] && !h.flushTimer && h.flight == if q.queue == [] then Settling else Batch(q.queue)
  {
  }

  /** How many pushes and timers of a run found a flush under way, and how many callers ran on
      after a flush. */
  function TurnedAway(q: Queue, steps: seq<Step>): nat {
    if steps == [] then 0
    else
      var before, s := Run(q, steps[..|steps| - 1]), steps[|steps| - 1];
      TurnedAway(q, steps[..|steps| - 1])
      + (if before.flight != Idle && (s.FlushTimerStep? || s.RetryTimerStep? || (s.PushStep? && !PushWaits(before))) then 1 else 0)
  }

  function RanOn(q: Queue, steps: seq<Step>): nat {
    if steps == [] then 0
    else RanOn(q, steps[..|steps| - 1])
         + (if steps[|steps| - 1].ContinueStep? && Run(q, steps[..|steps| - 1]).ready > 0 then 1 else 0)
  }

  /** A push that only arms the flush timer. */
  predicate PushWaits(q: Queue) {
    |q.queue| + 1 < q.flushBatch && |q.queue| + 1 < q.maxDepth && !q.flushTimer
  }

  /** Nobody who is turned away is forgotten or runs twice: each waits, runs next, or has run on
      once. */
  lemma {:induction false} EachCallerRunsOnce(flushBatch: int, maxDepth: int, steps: seq<Step>)
    ensures var q := Run(Fresh(flushBatch, maxDepth), steps);
            q.waiting + q.ready + RanOn(Fresh(flushBatch, maxDepth), steps) == TurnedAway(Fresh(flushBatch, maxDepth), steps)
  {
    if steps != [] {
      EachCallerRunsOnce(flushBatch, maxDepth, steps[..|steps| - 1]);
      StepTurnsAway(Run(Fresh(flushBatch, maxDepth), steps[..|steps| - 1]), steps[|steps| - 1]);
    }
  }

  lemma StepTurnsAway(q: Queue, s: Step)
    ensures var h := Apply(q, s);
            h.waiting + h.ready + (if s.ContinueStep? && q.ready > 0 then 1 else 0) ==
            q.waiting + q.ready
            + (if q.flight != Idle && (s.FlushTimerStep? || s.RetryTimerStep? || (s.PushStep? && !PushWaits(q))) then 1 else 0)
  {
  }

  /** From an idle queue of one entry a second push starts the flush, whatever the batch size. */
  lemma SecondPushFlushes(flushBatch: int, maxDepth: int, first: int, second: int)
    requires flushBatch >= 2 && maxDepth >= 2
    ensures var q := Run(Fresh(flushBatch, maxDepth), [PushStep(first), PushStep(second)]);
            q.flight == Batch([Entry(0, first), Entry(1, second)]) && !q.flushTimer
  {
    var q := Fresh(flushBatch, maxDepth);
    RunConcat(q, [PushStep(first)], [PushStep(second)]);
    assert [PushStep(first)] + [PushStep(second)] == [PushStep(first), PushStep(second)];
    RunOne(q, PushStep(first));
    RunOne(Apply(q, PushStep(first)), PushStep(second));
  }

  /** After the shutdown drain nothing is queued, no timer fires any more, every entry that was
      waiting is counted once, and a batch at the store is still the store's. */
  lemma ShutdownEndsIt(flushBatch: int, maxDepth: int, steps: seq<Step>)
    ensures var q := Run(Fresh(flushBatch, maxDepth), steps);
            var h := Run(Fresh(flushBatch, maxDepth), steps + [ShutdownStep]);
            && h.queue == [] && !h.flushTimer && !h.retryTimer && h.flight == q.flight
            && Line(h) == q.persisted + InFlight(q)
            && h.droppedCount - q.droppedCount == |q.queue|
            && h.pushed == q.pushed
  {
    RunConcat(Fresh(flushBatch, maxDepth), steps, [ShutdownStep]);
    RunOne(Run(Fresh(flushBatch, maxDepth), steps), ShutdownStep);
  }

  /** An overflow drops old entries: with room for two, the entry just pushed is never lost. */
  lemma PushKeepsNewest(q: Queue, captureId: int)
    requires q.maxDepth >= 2
    ensures var h := Push(q, captureId);
            Line(h) != [] && Line(h)[|Line(h)| - 1] == Entry(|q.pushed|, captureId)
  {
  }
}
