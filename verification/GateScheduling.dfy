/** Who is granted when: a refusal outlives other grants, so one pass over the queue is
    enough, and equal requests are served in arrival order. */
module GateScheduling {
  import opened Wrappers
  import opened Reservations
  import opened GateModel
  import opened GateConservation

  /** No request of `s` could be granted now. */
  ghost predicate Refused(g: Gate, s: seq<Request>) {
    forall r :: r in s ==> !CanGrant(g, r.intention, r.weight)
  }

  /** No queued waiter is grantable. */
  ghost predicate Settled(g: Gate) {
    Refused(g, g.waiters)
  }

  // ------------------------------------------------------------ a refusal survives

  /** Granting `w` to `j` frees at most `w` of what others must leave free, and nothing when
      the asker is `j` itself. */
  lemma {:induction false} UnfilledAfterGrant(
      eff: seq<Reservation>, a: map<Intention, int>, q: map<Intention, int>,
      a': map<Intention, int>, q': map<Intention, int>, i: Intention, j: Intention, w: Pos)
    requires DistinctKeys(eff)
    requires forall k :: Get(a', k) == Get(a, k) + (if k == j then w else 0)
    requires forall k :: InDemand(a, q, k) ==> InDemand(a', q', k)
    ensures Unfilled(eff, a', q', i) >= Unfilled(eff, a, q, i) - w
    ensures i == j || (forall e :: e in eff ==> e.key != j) ==> Unfilled(eff, a', q', i) >= Unfilled(eff, a, q, i)
  {
    if eff != [] {
      var init, e := eff[..|eff| - 1], eff[|eff| - 1];
      UnfilledAfterGrant(init, a, q, a', q', i, j, w);
      assert Get(a', e.key) == Get(a, e.key) + (if e.key == j then w else 0);
      assert InDemand(a, q, e.key) ==> InDemand(a', q', e.key);
      if e.key == j {
        assert forall x :: x in init ==> x.key != j;
      } else {
        assert Need(e, a', q', i) >= Need(e, a, q, i);
        assert e in eff;
      }
    }
  }

  /** `g'` is `g` after `w` was granted to `j`, with no intention losing its demand. */
  ghost predicate Granting(g: Gate, g': Gate, j: Intention, w: Pos) {
    && g'.limit == g.limit && g'.reservations == g.reservations
    && g'.active == g.active + w
    && (forall k :: Get(g'.activeBy, k) == Get(g.activeBy, k) + (if k == j then w else 0))
    && (forall k :: InDemand(g.activeBy, g.queuedBy, k) ==> InDemand(g'.activeBy, g'.queuedBy, k))
  }

  /** A grant to any intention never makes a refused request grantable. */
  lemma RefusalSurvivesGrant(g: Gate, g': Gate, j: Intention, w: Pos, i: Intention, v: Pos)
    requires Granting(g, g', j, w)
    requires !CanGrant(g, i, v)
    ensures !CanGrant(g', i, v)
  {
    var eff := Effective(g.reservations, g.limit);
    UnfilledAfterGrant(eff, g.activeBy, g.queuedBy, g'.activeBy, g'.queuedBy, i, j, w);
    assert Get(g'.activeBy, i) >= Get(g.activeBy, i);
  }

  lemma DrainStepIsGranting(g: Gate, todo: seq<Request>, kept: seq<Request>)
    requires todo != [] && Conserved(g) && Counted(g, kept + todo)
    ensures Granting(g, Grant(Uncount(g, todo[0].intention), todo[0]), todo[0].intention, todo[0].weight)
  {
    var j := todo[0].intention;
    var g' := Grant(Uncount(g, j), todo[0]);
    forall k ensures InDemand(g.activeBy, g.queuedBy, k) ==> InDemand(g'.activeBy, g'.queuedBy, k) {
      assert Get(g.activeBy, k) == WeightOf(g.held, k) + WeightOf(g.pending, k);
    }
  }

  lemma RefusedAfterDrainStep(g: Gate, todo: seq<Request>, kept: seq<Request>)
    requires todo != [] && Conserved(g) && Counted(g, kept + todo) && Refused(g, kept)
    ensures Refused(Grant(Uncount(g, todo[0].intention), todo[0]), kept)
  {
    var g' := Grant(Uncount(g, todo[0].intention), todo[0]);
    DrainStepIsGranting(g, todo, kept);
    forall r | r in kept ensures !CanGrant(g', r.intention, r.weight) {
      RefusalSurvivesGrant(g, g', todo[0].intention, todo[0].weight, r.intention, r.weight);
    }
  }

  // ------------------------------------------------------------ one pass is a fixpoint

  lemma {:induction false} DrainRefuses(g: Gate, todo: seq<Request>, kept: seq<Request>)
    requires Conserved(g) && Counted(g, kept + todo) && Refused(g, kept)
    ensures Settled(Drain(g, todo, kept))
    decreases |todo|
  {
    if todo == [] {
      forall r | r in kept ensures !CanGrant(g.(waiters := kept), r.intention, r.weight) {
        assert !CanGrant(g, r.intention, r.weight);
      }
    } else if CanGrant(g, todo[0].intention, todo[0].weight) {
      DrainStepKeeps(g, todo, kept);
      RefusedAfterDrainStep(g, todo, kept);
      DrainRefuses(Grant(Uncount(g, todo[0].intention), todo[0]), todo[1..], kept);
    } else {
      assert kept + [todo[0]] + todo[1..] == kept + todo;
      DrainRefuses(g, todo[1..], kept + [todo[0]]);
    }
  }

  /** After one drain no remaining waiter can be granted. */
  lemma DrainSettles(g: Gate)
    requires Valid(g)
    ensures Settled(DrainWaiters(g))
  {
    assert [] + g.waiters == g.waiters;
    if g.waiters != [] { DrainRefuses(g, g.waiters, []); }
  }

  lemma DecisionIgnoresHistory(g: Gate, g': Gate, i: Intention, w: int)
    requires g'.active == g.active && g'.limit == g.limit && g'.reservations == g.reservations
    requires g'.activeBy == g.activeBy && g'.queuedBy == g.queuedBy
    ensures CanGrant(g', i, w) == CanGrant(g, i, w)
  {
  }

  lemma SettledIgnoresHistory(g: Gate, g': Gate)
    requires Settled(g)
    requires g'.active == g.active && g'.limit == g.limit && g'.reservations == g.reservations
    requires g'.activeBy == g.activeBy && g'.queuedBy == g.queuedBy && g'.waiters == g.waiters
    ensures Settled(g')
  {
    forall r | r in g'.waiters ensures !CanGrant(g', r.intention, r.weight) {
      assert !CanGrant(g, r.intention, r.weight);
    }
  }

  lemma NewcomerGrantKeepsSettled(g: Gate, r: Request)
    requires Valid(g) && Settled(g)
    ensures Settled(Grant(g, r))
  {
    var g' := Grant(g, r);
    forall k ensures InDemand(g.activeBy, g.queuedBy, k) ==> InDemand(g'.activeBy, g'.queuedBy, k) {
      assert Get(g.activeBy, k) == WeightOf(g.held, k) + WeightOf(g.pending, k);
      assert Get(g.queuedBy, k) == Count(g.waiters, k);
    }
    forall v | v in g'.waiters ensures !CanGrant(g', v.intention, v.weight) {
      RefusalSurvivesGrant(g, g', r.intention, r.weight, v.intention, v.weight);
    }
  }

  lemma {:induction false} UnfilledMoreDemand(
      eff: seq<Reservation>, a: map<Intention, int>, q: map<Intention, int>, q': map<Intention, int>, i: Intention)
    requires forall k :: InDemand(a, q, k) ==> InDemand(a, q', k)
    ensures Unfilled(eff, a, q', i) >= Unfilled(eff, a, q, i)
  {
    if eff != [] {
      UnfilledMoreDemand(eff[..|eff| - 1], a, q, q', i);
      assert InDemand(a, q, eff[|eff| - 1].key) ==> InDemand(a, q', eff[|eff| - 1].key);
    }
  }

  /** A refused newcomer that joins the queue leaves every waiter, itself included, refused. */
  lemma EnqueueKeepsSettled(g: Gate, r: Request)
    requires Valid(g) && Settled(g) && !CanGrant(g, r.intention, r.weight)
    ensures Settled(Enqueue(g, r))
  {
    var g' := Enqueue(g, r);
    forall k ensures InDemand(g.activeBy, g.queuedBy, k) ==> InDemand(g.activeBy, g'.queuedBy, k) {
      assert Get(g.activeBy, k) == WeightOf(g.held, k) + WeightOf(g.pending, k);
      assert Get(g.queuedBy, k) == Count(g.waiters, k);
    }
    forall v | v in g'.waiters ensures !CanGrant(g', v.intention, v.weight) {
      assert !CanGrant(g, v.intention, v.weight);
      UnfilledMoreDemand(Effective(g.reservations, g.limit), g.activeBy, g.queuedBy, g'.queuedBy, v.intention);
    }
  }

  /** Steps that either drain or cannot make a waiter grantable. */
  predicate Draining(s: Step) {
    !s.RemoveStep? && !s.ReconfigureStep?
  }

  lemma AcquireKeepsSettled(g: Gate, i: Intention, w: int, p: bool)
    requires Valid(g) && Settled(g)
    ensures Settled(Acquire(g, i, w, p).0)
  {
    if w > 0 {
      var r, g1 := Request(g.arrivals, i, w, p), g.(arrivals := g.arrivals + 1);
      SettledIgnoresHistory(g, g1);
      DecisionIgnoresHistory(g, g1, i, w);
      if CanGrant(g, i, w) {
        NewcomerGrantKeepsSettled(g1, r);
        assert Acquire(g, i, w, p).0 == Grant(g1, r);
      } else {
        EnqueueKeepsSettled(g1, r);
        assert Acquire(g, i, w, p).0 in {g1, Enqueue(g1, r)};
      }
    }
  }

  lemma TimerKeepsSettled(g: Gate)
    requires Valid(g) && Settled(g)
    ensures Settled(FireTimer(g))
  {
    SettlePendingConserves(g);
    DrainSettles(SettlePending(g));
  }

  lemma LimitsKeepSettled(g: Gate, n: int)
    requires Valid(g) && Settled(g)
    ensures Settled(Resize(g, n)) && Settled(SetHardCap(g, n)) && Settled(SetSoftLimit(g, n))
  {
    var clamped: Limit := Max(SCALE, Min(n, g.hardCap));
    DrainSettles(g.(limit := clamped));
    var cap: Limit := Max(1, n) * SCALE;
    var g1 := g.(hardCap := cap, softLimit := Min(g.softLimit, cap));
    DrainSettles(g1.(limit := cap));
    SettledIgnoresHistory(g, g1);
    SettledIgnoresHistory(g, SetSoftLimit(g, n));
  }

  /** Every acquire, release, release batch, resize and cap change keeps "no queued waiter is
      grantable". */
  lemma StepKeepsSettled(g: Gate, s: Step)
    requires Valid(g) && Settled(g) && Draining(s)
    ensures Settled(Apply(g, s))
  {
    match s
    case AcquireStep(i, w, p) => AcquireKeepsSettled(g, i, w, p);
    case ReleaseStep(id) => SettledIgnoresHistory(g, Release(g, id));
    case TimerStep => TimerKeepsSettled(g);
    case ResizeStep(n) => LimitsKeepSettled(g, n);
    case HardCapStep(n) => LimitsKeepSettled(g, n);
    case SoftLimitStep(n) => LimitsKeepSettled(g, n);
  }

  lemma {:induction false} SettledOverRuns(g: Gate, steps: seq<Step>)
    requires Valid(g) && Settled(g)
    requires forall s :: s in steps ==> Draining(s)
    ensures Settled(Run(g, steps))
  {
    if steps != [] {
      SettledOverRuns(g, steps[..|steps| - 1]);
      ConservationOverRuns(g, steps[..|steps| - 1]);
      StepKeepsSettled(Run(g, steps[..|steps| - 1]), steps[|steps| - 1]);
    }
  }

  // ------------------------------------------------------------ arrival order

  predicate SameClass(a: Request, b: Request) {
    a.intention == b.intention && a.weight == b.weight
  }

  /** With `queue` as the waiting line: grants to equal requests happened in arrival order,
      nobody waiting arrived before an equal request that was granted, and the line itself is
      in arrival order. */
  ghost predicate InOrder(granted: seq<Request>, queue: seq<Request>, arrivals: nat) {
    && (forall a, b :: 0 <= a < b < |granted| && SameClass(granted[a], granted[b]) ==> granted[a].id < granted[b].id)
    && (forall x, y :: x in granted && y in queue && SameClass(x, y) ==> x.id < y.id)
    && (forall a, b :: 0 <= a < b < |queue| ==> queue[a].id < queue[b].id)
    && (forall x :: x in granted ==> x.id < arrivals)
    && (forall x :: x in queue ==> x.id < arrivals)
  }

  ghost predicate Fifo(g: Gate, queue: seq<Request>) {
    InOrder(g.granted, queue, g.arrivals)
  }

  lemma WithoutFacts(queue: seq<Request>, i: nat)
    requires i < |queue|
    ensures forall y :: y in Without(queue, i) ==> y in queue
    ensures forall n :: 0 <= n < |queue| - 1 ==> Without(queue, i)[n] == queue[if n < i then n else n + 1]
  {
  }

  /** Taking `queue[i]` past earlier requests of other classes keeps the order. */
  lemma InOrderServe(granted: seq<Request>, queue: seq<Request>, i: nat, arrivals: nat)
    requires InOrder(granted, queue, arrivals) && i < |queue|
    requires forall y :: y in queue[..i] ==> !SameClass(queue[i], y)
    ensures InOrder(granted + [queue[i]], Without(queue, i), arrivals)
  {
    var r, rest := queue[i], Without(queue, i);
    WithoutFacts(queue, i);
    assert r in queue;
    forall y | y in rest && SameClass(r, y) ensures r.id < y.id {
      var n :| 0 <= n < |rest| && rest[n] == y;
      if n < i { assert queue[..i][n] == y; }
    }
  }

  lemma InOrderNewcomer(granted: seq<Request>, queue: seq<Request>, r: Request, arrivals: nat)
    requires InOrder(granted, queue, arrivals) && r.id == arrivals
    ensures InOrder(granted, queue, arrivals + 1)
    ensures InOrder(granted, queue + [r], arrivals + 1)
    ensures (forall y :: y in queue ==> !SameClass(r, y)) ==> InOrder(granted + [r], queue, arrivals + 1)
  {
  }

  /** Granting the head of `todo` past refused `kept` overtakes nobody of its class. */
  lemma FifoAfterDrainStep(g: Gate, todo: seq<Request>, kept: seq<Request>)
    requires todo != [] && Fifo(g, kept + todo) && Refused(g, kept)
    requires CanGrant(g, todo[0].intention, todo[0].weight)
    ensures Fifo(Grant(Uncount(g, todo[0].intention), todo[0]), kept + todo[1..])
  {
    var line := kept + todo;
    forall y | y in kept ensures !SameClass(todo[0], y) {
      assert !CanGrant(g, y.intention, y.weight);
    }
    assert line[..|kept|] == kept && line[|kept|] == todo[0];
    assert Without(line, |kept|) == kept + todo[1..];
    InOrderServe(g.granted, line, |kept|, g.arrivals);
  }

  lemma {:induction false} DrainKeepsFifo(g: Gate, todo: seq<Request>, kept: seq<Request>)
    requires Conserved(g) && Counted(g, kept + todo) && Refused(g, kept) && Fifo(g, kept + todo)
    ensures Fifo(Drain(g, todo, kept), Drain(g, todo, kept).waiters)
    decreases |todo|
  {
    if todo == [] {
      assert kept + todo == kept;
    } else if CanGrant(g, todo[0].intention, todo[0].weight) {
      DrainStepKeeps(g, todo, kept);
      RefusedAfterDrainStep(g, todo, kept);
      FifoAfterDrainStep(g, todo, kept);
      DrainKeepsFifo(Grant(Uncount(g, todo[0].intention), todo[0]), todo[1..], kept);
    } else {
      assert kept + [todo[0]] + todo[1..] == kept + todo;
      DrainKeepsFifo(g, todo[1..], kept + [todo[0]]);
    }
  }

  lemma DrainWaitersKeepsFifo(g: Gate)
    requires Valid(g) && Fifo(g, g.waiters)
    ensures Fifo(DrainWaiters(g), DrainWaiters(g).waiters)
  {
    assert [] + g.waiters == g.waiters;
    if g.waiters != [] { DrainKeepsFifo(g, g.waiters, []); }
  }

  /** The step is an acquire granted at once while an equal request waits: what a caller sees
      by looking at the queue before the call. */
  predicate Jumps(g: Gate, s: Step) {
    s.AcquireStep? && s.weight > 0 && CanGrant(g, s.intention, s.weight)
    && exists y :: y in g.waiters && y.intention == s.intention && y.weight == s.weight
  }

  lemma SettledNeverJumps(g: Gate, s: Step)
    requires Settled(g)
    ensures !Jumps(g, s)
  {
    if s.AcquireStep? {
      forall y | y in g.waiters && y.intention == s.intention && y.weight == s.weight ensures !CanGrant(g, s.intention, s.weight) {
        assert !CanGrant(g, y.intention, y.weight);
      }
    }
  }

  /** What an acquire adds to the record of grants and to the queue. */
  lemma AcquireRecords(g: Gate, r: Request)
    requires r.id == g.arrivals
    ensures var h := Acquire(g, r.intention, r.weight, r.wasProbe).0;
            && h.arrivals == g.arrivals + 1
            && (CanGrant(g, r.intention, r.weight) ==> h.granted == g.granted + [r] && h.waiters == g.waiters)
            && (!CanGrant(g, r.intention, r.weight) ==>
                  h.granted == g.granted && (h.waiters == g.waiters || h.waiters == g.waiters + [r]))
  {
  }

  lemma FifoOf(g: Gate, granted: seq<Request>, queue: seq<Request>, arrivals: nat)
    requires g.granted == granted && g.waiters == queue && g.arrivals == arrivals && InOrder(granted, queue, arrivals)
    ensures Fifo(g, g.waiters)
  {
  }

  /** A newcomer that is granted ahead of the queue breaks the order exactly when an equal
      request waits: it arrived last. */
  lemma AcquireFifoIff(g: Gate, s: Step)
    requires s.AcquireStep? && s.weight > 0 && Fifo(g, g.waiters)
    ensures Fifo(Apply(g, s), Apply(g, s).waiters) <==> !Jumps(g, s)
  {
    var r := Request(g.arrivals, s.intention, s.weight, s.wasProbe);
    var h := Apply(g, s);
    AcquireRecords(g, r);
    if Jumps(g, s) {
      var y :| y in g.waiters && SameClass(r, y);
      assert r in h.granted && y in h.waiters && y.id < r.id;
    } else {
      assert InOrder(h.granted, h.waiters, h.arrivals) by {
        InOrderNewcomer(g.granted, g.waiters, r, g.arrivals);
      }
      FifoOf(h, h.granted, h.waiters, h.arrivals);
    }
  }

  lemma RemoveKeepsFifo(g: Gate, id: nat)
    requires Fifo(g, g.waiters)
    ensures Fifo(RemoveWaiter(g, id), RemoveWaiter(g, id).waiters)
  {
    var i := IndexOf(g.waiters, id);
    if i >= 0 { WithoutFacts(g.waiters, i); }
  }

  lemma LimitsKeepFifo(g: Gate, n: int)
    requires Valid(g) && Fifo(g, g.waiters)
    ensures Fifo(Resize(g, n), Resize(g, n).waiters) && Fifo(SetHardCap(g, n), SetHardCap(g, n).waiters)
  {
    var clamped: Limit := Max(SCALE, Min(n, g.hardCap));
    DrainWaitersKeepsFifo(g.(limit := clamped));
    var cap: Limit := Max(1, n) * SCALE;
    var g1 := g.(hardCap := cap, softLimit := Min(g.softLimit, cap));
    if g.limit > cap { DrainWaitersKeepsFifo(g1.(limit := cap)); }
  }

  lemma OtherStepKeepsFifo(g: Gate, s: Step)
    requires Valid(g) && Fifo(g, g.waiters) && !s.AcquireStep?
    ensures Fifo(Apply(g, s), Apply(g, s).waiters)
  {
    match s
    case ReleaseStep(id) =>
    case TimerStep =>
      SettlePendingConserves(g);
      DrainWaitersKeepsFifo(SettlePending(g));
    case RemoveStep(id) => RemoveKeepsFifo(g, id);
    case ResizeStep(n) => LimitsKeepFifo(g, n);
    case HardCapStep(n) => LimitsKeepFifo(g, n);
    case SoftLimitStep(n) =>
    case ReconfigureStep(d, rs) =>
  }

  /** A step keeps arrival order exactly when it does not jump the queue. */
  lemma StepFifoIff(g: Gate, s: Step)
    requires Valid(g) && Fifo(g, g.waiters)
    ensures Fifo(Apply(g, s), Apply(g, s).waiters) <==> !Jumps(g, s)
  {
    if s.AcquireStep? {
      if s.weight > 0 { AcquireFifoIff(g, s); }
    } else {
      OtherStepKeepsFifo(g, s);
    }
  }

  /** Arrival order holds at every moment of the run. */
  ghost predicate FifoThroughout(g: Gate, steps: seq<Step>) {
    Fifo(Run(g, steps), Run(g, steps).waiters) && (steps != [] ==> FifoThroughout(g, steps[..|steps| - 1]))
  }

  ghost predicate NobodyJumps(g: Gate, steps: seq<Step>) {
    steps != [] ==> NobodyJumps(g, steps[..|steps| - 1]) && !Jumps(Run(g, steps[..|steps| - 1]), steps[|steps| - 1])
  }

  /** Exactly when equal requests are served in arrival order throughout a run, timeouts,
      aborts and reconfigurations included: when no acquire jumps the queue. */
  lemma {:induction false} FifoThroughoutIff(g: Gate, steps: seq<Step>)
    requires Valid(g) && Fifo(g, g.waiters)
    ensures FifoThroughout(g, steps) <==> NobodyJumps(g, steps)
  {
    if steps != [] {
      var init := steps[..|steps| - 1];
      FifoThroughoutIff(g, init);
      if FifoThroughout(g, init) {
        ConservationOverRuns(g, init);
        StepFifoIff(Run(g, init), steps[|steps| - 1]);
      }
    }
  }

  /** Each acquire of the run finds a settled queue. */
  ghost predicate AcquiresSettled(g: Gate, steps: seq<Step>) {
    steps == [] ||
    ( AcquiresSettled(g, steps[..|steps| - 1])
      && (steps[|steps| - 1].AcquireStep? ==> Settled(Run(g, steps[..|steps| - 1]))))
  }

  lemma {:induction false} SettledAcquiresNeverJump(g: Gate, steps: seq<Step>)
    requires AcquiresSettled(g, steps)
    ensures NobodyJumps(g, steps)
  {
    if steps != [] {
      var init := steps[..|steps| - 1];
      SettledAcquiresNeverJump(g, init);
      if steps[|steps| - 1].AcquireStep? { SettledNeverJumps(Run(g, init), steps[|steps| - 1]); }
    }
  }

  /** In particular arrival order holds when each acquire finds no grantable waiter. */
  lemma FifoOverSettledRuns(g: Gate, steps: seq<Step>)
    requires Valid(g) && Fifo(g, g.waiters) && AcquiresSettled(g, steps)
    ensures FifoThroughout(g, steps)
  {
    SettledAcquiresNeverJump(g, steps);
    FifoThroughoutIff(g, steps);
  }

  lemma {:induction false} DrainingRunsSettle(g: Gate, steps: seq<Step>)
    requires Valid(g) && Settled(g)
    requires forall s :: s in steps ==> Draining(s)
    ensures AcquiresSettled(g, steps)
  {
    if steps != [] {
      DrainingRunsSettle(g, steps[..|steps| - 1]);
      SettledOverRuns(g, steps[..|steps| - 1]);
    }
  }

  /** No overtaking: in any run of acquires, releases, release batches, resizes and cap
      changes of a new gate, requests of one intention and weight are granted in arrival
      order, newcomers and queued waiters alike. */
  lemma NoOvertaking(hardCap: int, softLimit: int, depth: int, rs: Record, steps: seq<Step>)
    requires forall s :: s in steps ==> Draining(s)
    ensures FifoThroughout(Fresh(hardCap, softLimit, depth, rs), steps)
  {
    var g := Fresh(hardCap, softLimit, depth, rs);
    FreshIsValid(hardCap, softLimit, depth, rs);
    DrainingRunsSettle(g, steps);
    FifoOverSettledRuns(g, steps);
  }
}
