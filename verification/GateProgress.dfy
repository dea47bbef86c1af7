/** No waiter is stranded: exactly when a waiting request can be left with nothing active
    that could ever wake it. */
module GateProgress {
  import opened Wrappers
  import opened Reservations
  import opened GateModel
  import opened GateConservation
  import opened GatePermits
  import opened GatePlain

  // ------------------------------------------------------------ the condition

  /** The most that at most `d` reservations below `w` (each too small to cover one request of
      weight `w`) add up to: the sum of the `d` largest of them. */
  function Best(rs: seq<Reservation>, w: int, d: nat): nat {
    if rs == [] || d == 0 then 0
    else
      var init, a := rs[..|rs| - 1], rs[|rs| - 1].amount;
      if a < w then Max(Best(init, w, d), Best(init, w, d - 1) + a) else Best(init, w, d)
  }

  /** The largest reservation below `w`, 0 when there is none. */
  function LargestSmall(rs: seq<Reservation>, w: int): nat {
    if rs == [] then 0
    else if rs[|rs| - 1].amount < w then Max(LargestSmall(rs[..|rs| - 1], w), rs[|rs| - 1].amount)
    else LargestSmall(rs[..|rs| - 1], w)
  }

  /** What an operator can check of a configuration with a queue of depth `d`: a request of
      weight `w` fits the limit, and (unless reservations are over-subscribed) still fits next
      to the `d` largest of the reservations too small to cover it, the very largest not
      counted. */
  predicate Roomy(rs: seq<Reservation>, limit: int, w: int, d: Pos) {
    w <= limit && (Sum(rs) > limit || w + Best(rs, w, d) - LargestSmall(rs, w) <= limit)
  }

  ghost predicate Within(s: seq<Request>, w: int) {
    forall r :: r in s ==> r.weight <= w
  }

  /** Someone waits although nothing is active, so no release will ever drain the queue. */
  predicate Stranded(g: Gate) {
    g.waiters != [] && g.active == 0
  }

  // ------------------------------------------------------------ sums over the demanding

  /** What the waiting intentions have reserved, and the largest such reservation. */
  function DemandSum(rs: seq<Reservation>, q: seq<Request>): nat {
    if rs == [] then 0
    else DemandSum(rs[..|rs| - 1], q) + (if Count(q, rs[|rs| - 1].key) > 0 then rs[|rs| - 1].amount else 0)
  }

  function DemandMax(rs: seq<Reservation>, q: seq<Request>): nat {
    if rs == [] then 0
    else if Count(q, rs[|rs| - 1].key) > 0 then Max(DemandMax(rs[..|rs| - 1], q), rs[|rs| - 1].amount)
    else DemandMax(rs[..|rs| - 1], q)
  }

  /** How many reserved intentions wait. */
  function DemandCount(rs: seq<Reservation>, q: seq<Request>): nat {
    if rs == [] then 0 else DemandCount(rs[..|rs| - 1], q) + (if Count(q, rs[|rs| - 1].key) > 0 then 1 else 0)
  }

  lemma {:induction false} NobodyDemands(rs: seq<Reservation>)
    ensures DemandCount(rs, []) == 0
  {
    if rs != [] { NobodyDemands(rs[..|rs| - 1]); }
  }

  lemma {:induction false} OneMoreDemands(rs: seq<Reservation>, q: seq<Request>)
    requires DistinctKeys(rs) && q != []
    ensures var k, init := q[|q| - 1].intention, q[..|q| - 1];
            DemandCount(rs, q) <= DemandCount(rs, init) + (if exists e :: e in rs && e.key == k then 1 else 0)
  {
    if rs != [] {
      var rest, e := rs[..|rs| - 1], rs[|rs| - 1];
      OneMoreDemands(rest, q);
      assert e in rs && forall x :: x in rest ==> x in rs;
      if e.key == q[|q| - 1].intention {
        assert forall x :: x in rest ==> x.key != e.key;
      }
    }
  }

  /** No more intentions wait than requests. */
  lemma {:induction false} DemandCountAtMost(rs: seq<Reservation>, q: seq<Request>)
    requires DistinctKeys(rs)
    ensures DemandCount(rs, q) <= |q|
  {
    if q == [] {
      NobodyDemands(rs);
    } else {
      DemandCountAtMost(rs, q[..|q| - 1]);
      OneMoreDemands(rs, q);
    }
  }

  /** Every waiting intention's reservation is below `w`. */
  ghost predicate SmallDemand(rs: seq<Reservation>, q: seq<Request>, w: int) {
    forall e :: e in rs && Count(q, e.key) > 0 ==> e.amount < w
  }

  lemma SmallDemandShrinks(rs: seq<Reservation>, q: seq<Request>, w: int)
    requires rs != [] && SmallDemand(rs, q, w)
    ensures SmallDemand(rs[..|rs| - 1], q, w)
    ensures Count(q, rs[|rs| - 1].key) > 0 ==> rs[|rs| - 1].amount < w
  {
    assert rs[|rs| - 1] in rs;
  }

  lemma {:induction false} BestHasLargest(rs: seq<Reservation>, w: int, d: Pos)
    ensures Best(rs, w, d) >= LargestSmall(rs, w)
  {
    if rs != [] { BestHasLargest(rs[..|rs| - 1], w, d); }
  }

  lemma {:induction false} DemandIsBelowBest(rs: seq<Reservation>, q: seq<Request>, w: int, d: nat)
    requires SmallDemand(rs, q, w) && DemandCount(rs, q) <= d
    ensures DemandSum(rs, q) <= Best(rs, w, d)
  {
    if rs != [] {
      var init := rs[..|rs| - 1];
      SmallDemandShrinks(rs, q, w);
      if Count(q, rs[|rs| - 1].key) > 0 {
        DemandIsBelowBest(init, q, w, d - 1);
      } else {
        DemandIsBelowBest(init, q, w, d);
      }
    }
  }

  /** All but the largest demand are at most `d - 1`. */
  lemma {:induction false} DemandRestBelowBest(rs: seq<Reservation>, q: seq<Request>, w: int, d: Pos)
    requires SmallDemand(rs, q, w) && DemandCount(rs, q) <= d
    ensures DemandSum(rs, q) - DemandMax(rs, q) <= Best(rs, w, d - 1)
  {
    if rs != [] {
      var init, e := rs[..|rs| - 1], rs[|rs| - 1];
      SmallDemandShrinks(rs, q, w);
      if Count(q, e.key) == 0 {
        DemandRestBelowBest(init, q, w, d);
      } else if e.amount >= DemandMax(init, q) {
        DemandIsBelowBest(init, q, w, d - 1);
      } else {
        SomeoneDemands(init, q);
        DemandRestBelowBest(init, q, w, d - 1);
      }
    }
  }

  lemma {:induction false} SomeoneDemands(rs: seq<Reservation>, q: seq<Request>)
    requires DemandMax(rs, q) > 0
    ensures DemandCount(rs, q) > 0
  {
    if Count(q, rs[|rs| - 1].key) == 0 { SomeoneDemands(rs[..|rs| - 1], q); }
  }

  /** Exchanging the largest demand for the largest small reservation does not beat the best
      choice of `d`. */
  lemma {:induction false} DemandBelowBest(rs: seq<Reservation>, q: seq<Request>, w: int, d: Pos)
    requires SmallDemand(rs, q, w) && DemandCount(rs, q) <= d
    ensures DemandMax(rs, q) <= LargestSmall(rs, w)
    ensures DemandSum(rs, q) - DemandMax(rs, q) <= Best(rs, w, d) - LargestSmall(rs, w)
  {
    if rs != [] {
      var init, e := rs[..|rs| - 1], rs[|rs| - 1];
      SmallDemandShrinks(rs, q, w);
      BestHasLargest(rs, w, d);
      if Count(q, e.key) == 0 {
        DemandBelowBest(init, q, w, d);
        DemandRestBelowBest(init, q, w, d);
      } else if d == 1 {
        if DemandMax(init, q) > 0 { SomeoneDemands(init, q); }
        DemandIsBelowBest(init, q, w, 0);
      } else {
        DemandBelowBest(init, q, w, d - 1);
      }
    }
  }

  lemma {:induction false} LookupOfEntry(rs: seq<Reservation>, n: nat)
    requires DistinctKeys(rs) && n < |rs|
    ensures Lookup(rs, rs[n].key) == rs[n].amount
  {
    if n < |rs| - 1 { LookupOfEntry(rs[..|rs| - 1], n); }
  }

  lemma {:induction false} LookupAbsent(rs: seq<Reservation>, k: Intention)
    requires forall e :: e in rs ==> e.key != k
    ensures Lookup(rs, k) == 0
  {
    if rs != [] {
      assert rs[|rs| - 1] in rs;
      LookupAbsent(rs[..|rs| - 1], k);
    }
  }

  lemma {:induction false} DemandMaxAttained(rs: seq<Reservation>, q: seq<Request>) returns (n: nat)
    requires DemandMax(rs, q) > 0
    ensures n < |rs| && rs[n].amount == DemandMax(rs, q) && Count(q, rs[n].key) > 0
  {
    var e, init := rs[|rs| - 1], rs[..|rs| - 1];
    if Count(q, e.key) > 0 && e.amount >= DemandMax(init, q) {
      n := |rs| - 1;
    } else {
      n := DemandMaxAttained(init, q);
    }
  }

  /** With nothing active, what `i` must leave free is what the other waiting intentions
      have reserved. */
  lemma {:induction false} IdleUnfilled(rs: seq<Reservation>, a: map<Intention, int>, q: map<Intention, int>, queue: seq<Request>, i: Intention)
    requires DistinctKeys(rs)
    requires forall k :: Get(a, k) == 0
    requires forall k :: Get(q, k) == Count(queue, k)
    ensures Unfilled(rs, a, q, i) == DemandSum(rs, queue) - (if Count(queue, i) > 0 then Lookup(rs, i) else 0)
    ensures Count(queue, i) > 0 ==> Lookup(rs, i) <= DemandSum(rs, queue)
  {
    if rs != [] {
      var e, init := rs[|rs| - 1], rs[..|rs| - 1];
      IdleUnfilled(init, a, q, queue, i);
      assert Get(a, e.key) == 0 && Get(q, e.key) == Count(queue, e.key);
      if e.key == i {
        assert forall x :: x in init ==> x.key != i;
        LookupAbsent(init, i);
      }
    }
  }

  lemma IdleCounters(g: Gate)
    requires Conserved(g) && g.active == 0
    ensures forall k :: Get(g.activeBy, k) == 0
  {
    forall k ensures Get(g.activeBy, k) == 0 {
      WeightOfAtMost(g.held, k);
      WeightOfAtMost(g.pending, k);
    }
  }

  // ------------------------------------------------------------ someone fits an idle gate

  /** The waiter of the best-reserved intention fits when no waiter's reservation covers it. */
  lemma BestReservedFits(g: Gate, w: int, d: Pos) returns (n: nat)
    requires Valid(g) && g.active == 0 && g.waiters != [] && Within(g.waiters, w) && |g.waiters| <= d
    requires Roomy(g.reservations, g.limit, w, d) && Sum(g.reservations) <= g.limit
    requires forall r :: r in g.waiters ==> Lookup(g.reservations, r.intention) < r.weight
    ensures n < |g.waiters| && CanGrant(g, g.waiters[n].intention, g.waiters[n].weight)
  {
    var rs, q := g.reservations, g.waiters;
    SplitWithinLimit(rs, g.limit);
    forall e | e in rs && Count(q, e.key) > 0 ensures e.amount < w {
      var m := CountedIsPresent(q, e.key);
      assert q[m] in q;
      var x :| 0 <= x < |rs| && rs[x] == e;
      LookupOfEntry(rs, x);
    }
    DemandCountAtMost(rs, q);
    DemandBelowBest(rs, q, w, d);
    if DemandMax(rs, q) == 0 {
      n := 0;
    } else {
      var x := DemandMaxAttained(rs, q);
      LookupOfEntry(rs, x);
      n := CountedIsPresent(q, rs[x].key);
    }
    PresentIsCounted(q, n);
    IdleCounters(g);
    IdleUnfilled(rs, g.activeBy, g.queuedBy, q, q[n].intention);
    assert q[n] in q;
    assert Lookup(rs, q[n].intention) >= DemandMax(rs, q);
  }

  /** In a roomy configuration an idle gate with a queue always has a grantable waiter. */
  lemma SomeoneFits(g: Gate, w: int, d: Pos) returns (n: nat)
    requires Valid(g) && g.active == 0 && g.waiters != [] && Within(g.waiters, w) && |g.waiters| <= d
    requires Roomy(g.reservations, g.limit, w, d)
    ensures n < |g.waiters| && CanGrant(g, g.waiters[n].intention, g.waiters[n].weight)
  {
    var rs := g.reservations;
    OverSubscribedIffSumAboveLimit(rs, g.limit);
    IdleCounters(g);
    if Sum(rs) > g.limit {
      n := 0;
      assert g.waiters[0] in g.waiters;
    } else if exists m :: 0 <= m < |g.waiters| && Lookup(rs, g.waiters[m].intention) >= g.waiters[m].weight {
      SplitWithinLimit(rs, g.limit);
      n :| n < |g.waiters| && Lookup(rs, g.waiters[n].intention) >= g.waiters[n].weight;
      assert g.waiters[n] in g.waiters;
    } else {
      n := BestReservedFits(g, w, d);
    }
  }

  lemma {:induction false} DrainGrantsFitting(g: Gate, todo: seq<Request>, kept: seq<Request>, n: nat)
    requires g.active >= 0
    requires n < |todo| && CanGrant(g, todo[n].intention, todo[n].weight)
    ensures Drain(g, todo, kept).active > 0
    decreases |todo|
  {
    if !CanGrant(g, todo[0].intention, todo[0].weight) {
      assert todo[1..][n - 1] == todo[n];
      DrainGrantsFitting(g, todo[1..], kept + [todo[0]], n - 1);
    }
  }

  /** A drain from `active = 0` with a non-empty queue always grants someone. */
  lemma DrainWakes(g: Gate, w: int, d: Pos)
    requires Valid(g) && Within(g.waiters, w) && |g.waiters| <= d && Roomy(g.reservations, g.limit, w, d)
    ensures !Stranded(DrainWaiters(g))
  {
    if g.waiters != [] && g.active == 0 {
      var n := SomeoneFits(g, w, d);
      DrainGrantsFitting(g, g.waiters, [], n);
    }
  }

  // ------------------------------------------------------------ runs

  lemma {:induction false} DrainKeepsSubset(g: Gate, todo: seq<Request>, kept: seq<Request>)
    ensures forall r :: r in Drain(g, todo, kept).waiters ==> r in kept || r in todo
    decreases |todo|
  {
    if todo != [] {
      if CanGrant(g, todo[0].intention, todo[0].weight) {
        DrainKeepsSubset(Grant(Uncount(g, todo[0].intention), todo[0]), todo[1..], kept);
      } else {
        DrainKeepsSubset(g, todo[1..], kept + [todo[0]]);
      }
    }
  }

  /** What the run theorem carries along. */
  ghost predicate Awake(g: Gate, w: int, d: Pos) {
    Valid(g) && Within(g.waiters, w) && |g.waiters| <= d && !Stranded(g)
  }

  lemma DrainAwake(g: Gate, w: int, d: Pos)
    requires Valid(g) && Within(g.waiters, w) && |g.waiters| <= d && Roomy(g.reservations, g.limit, w, d)
    ensures Awake(DrainWaiters(g), w, d)
  {
    DrainWaitersConserves(g);
    DrainWakes(g, w, d);
    if g.waiters != [] {
      DrainKeepsSubset(g, g.waiters, []);
      DrainShortens(g, g.waiters, []);
    }
  }

  /** A request that finds the gate idle and the queue empty is granted at once. */
  lemma AcquireAwake(g: Gate, i: Intention, v: int, p: bool, w: int, d: Pos)
    requires Awake(g, w, d) && Roomy(g.reservations, g.limit, w, d) && v <= w && g.maxQueueDepth <= d
    ensures Awake(Acquire(g, i, v, p).0, w, d)
  {
    AcquireConserves(g, i, v, p);
    if v > 0 && g.active == 0 && g.waiters == [] {
      IdleCounters(g);
      NothingUnfilled(Effective(g.reservations, g.limit), g.activeBy, g.queuedBy, i);
    }
  }

  lemma LimitsAwake(g: Gate, n: int, w: int, d: Pos)
    requires Awake(g, w, d)
    ensures Roomy(g.reservations, Resize(g, n).limit, w, d) ==> Awake(Resize(g, n), w, d)
    ensures Roomy(g.reservations, SetHardCap(g, n).limit, w, d) ==> Awake(SetHardCap(g, n), w, d)
  {
    LimitsConserve(g, n);
    var clamped: Limit := Max(SCALE, Min(n, g.hardCap));
    if Roomy(g.reservations, clamped, w, d) { DrainAwake(g.(limit := clamped), w, d); }
    var cap: Limit := Max(1, n) * SCALE;
    var g1 := g.(hardCap := cap, softLimit := Min(g.softLimit, cap));
    if g.limit > cap && Roomy(g.reservations, cap, w, d) { DrainAwake(g1.(limit := cap), w, d); }
  }

  lemma TimerAwake(g: Gate, w: int, d: Pos)
    requires Awake(g, w, d) && Roomy(g.reservations, g.limit, w, d)
    ensures Awake(FireTimer(g), w, d)
  {
    SettlePendingConserves(g);
    DrainAwake(SettlePending(g), w, d);
  }

  lemma ReleaseAwake(g: Gate, id: nat, w: int, d: Pos)
    requires Awake(g, w, d)
    ensures Awake(Release(g, id), w, d)
  {
    ReleaseConserves(g, id);
  }

  lemma RemoveAwake(g: Gate, id: nat, w: int, d: Pos)
    requires Awake(g, w, d)
    ensures Awake(RemoveWaiter(g, id), w, d)
  {
    RemoveWaiterConserves(g, id);
  }

  lemma ReconfigureAwake(g: Gate, depth: Option<int>, rs: Option<Record>, w: int, d: Pos)
    requires Awake(g, w, d)
    ensures Awake(Reconfigure(g, depth, rs), w, d)
  {
    ReconfigureConserves(g, depth, rs);
  }

  /** Every step, timeouts, aborts and reconfigurations included, leaves no waiter stranded. */
  lemma StepAwake(g: Gate, s: Step, w: int, d: Pos)
    requires Awake(g, w, d) && (s.AcquireStep? ==> s.weight <= w)
    requires Roomy(g.reservations, g.limit, w, d)
    requires g.maxQueueDepth <= d && Roomy(Apply(g, s).reservations, Apply(g, s).limit, w, d)
    ensures Awake(Apply(g, s), w, d)
  {
    match s
    case AcquireStep(i, v, p) => AcquireAwake(g, i, v, p, w, d);
    case ReleaseStep(id) => ReleaseAwake(g, id, w, d);
    case TimerStep => TimerAwake(g, w, d);
    case RemoveStep(id) => RemoveAwake(g, id, w, d);
    case ResizeStep(n) => LimitsAwake(g, n, w, d);
    case HardCapStep(n) => LimitsAwake(g, n, w, d);
    case SoftLimitStep(n) =>
    case ReconfigureStep(depth, rs) => ReconfigureAwake(g, depth, rs, w, d);
  }

  /** Requests weigh at most `w`, the queue depth is at most `d` and the configuration is roomy
      for both all along. */
  ghost predicate RoomyRun(g: Gate, steps: seq<Step>, w: int, d: Pos) {
    && Run(g, steps).maxQueueDepth <= d && Roomy(Run(g, steps).reservations, Run(g, steps).limit, w, d)
    && (steps != [] ==>
          && RoomyRun(g, steps[..|steps| - 1], w, d)
          && (steps[|steps| - 1].AcquireStep? ==> steps[|steps| - 1].weight <= w))
  }

  lemma {:induction false} AwakeOverRuns(g: Gate, steps: seq<Step>, w: int, d: Pos)
    requires Awake(g, w, d) && RoomyRun(g, steps, w, d)
    ensures Awake(Run(g, steps), w, d)
  {
    if steps != [] {
      AwakeOverRuns(g, steps[..|steps| - 1], w, d);
      StepAwake(Run(g, steps[..|steps| - 1]), steps[|steps| - 1], w, d);
    }
  }

  /** No stranded waiter: whenever someone waits, a permit is held or the release timer is
      armed, so another drain will come. */
  lemma NoStrandedWaiter(hardCap: int, softLimit: int, depth: int, rs: Record, steps: seq<Step>, w: int, d: Pos)
    requires RoomyRun(Fresh(hardCap, softLimit, depth, rs), steps, w, d)
    ensures var g := Run(Fresh(hardCap, softLimit, depth, rs), steps);
            g.waiters != [] ==> g.active > 0 && (g.held != [] || g.timerArmed)
  {
    FreshIsValid(hardCap, softLimit, depth, rs);
    AwakeOverRuns(Fresh(hardCap, softLimit, depth, rs), steps, w, d);
  }

  // ------------------------------------------------------------ whole reservations

  /** Reservations as the configuration validates them: 0, or at least one full request. */
  predicate Whole(rs: seq<Reservation>) {
    forall e :: e in rs ==> e.amount == 0 || e.amount >= SCALE
  }

  lemma {:induction false} WholeIsRoomy(rs: seq<Reservation>, limit: Limit, d: nat)
    requires Whole(rs)
    ensures Best(rs, SCALE, d) == 0
    ensures d > 0 ==> Roomy(rs, limit, SCALE, d)
  {
    if rs != [] {
      assert rs[|rs| - 1] in rs;
      WholeIsRoomy(rs[..|rs| - 1], limit, d);
      if d > 0 { WholeIsRoomy(rs[..|rs| - 1], limit, d - 1); }
    }
  }

  predicate OrdinaryStep(s: Step) {
    match s
    case AcquireStep(_, v, _) => v <= SCALE
    case ReconfigureStep(_, rs) => rs.Some? ==> Whole(rs.value)
    case _ => true
  }

  lemma {:induction false} OrdinaryRunsAreRoomy(g: Gate, steps: seq<Step>, d: Pos)
    requires Whole(g.reservations) && forall s :: s in steps ==> OrdinaryStep(s)
    requires PeakDepth(g, steps) <= d
    ensures Whole(Run(g, steps).reservations) && RoomyRun(g, steps, SCALE, d)
  {
    if steps != [] {
      assert steps[|steps| - 1] in steps;
      OrdinaryRunsAreRoomy(g, steps[..|steps| - 1], d);
      assert OrdinaryStep(steps[|steps| - 1]);
    }
    WholeIsRoomy(Run(g, steps).reservations, Run(g, steps).limit, d);
  }

  /** With requests of weight at most 1 and reservations that are 0 or at least 1, no run
      strands a waiter, whatever the queue depth. */
  lemma NoStrandedWaiterWhole(hardCap: int, softLimit: int, depth: int, rs: Record, steps: seq<Step>)
    requires Whole(rs) && forall s :: s in steps ==> OrdinaryStep(s)
    ensures var g := Run(Fresh(hardCap, softLimit, depth, rs), steps);
            g.waiters != [] ==> g.active > 0 && (g.held != [] || g.timerArmed)
  {
    var g := Fresh(hardCap, softLimit, depth, rs);
    var d: Pos := Max(1, PeakDepth(g, steps));
    OrdinaryRunsAreRoomy(g, steps, d);
    NoStrandedWaiter(hardCap, softLimit, depth, rs, steps, SCALE, d);
  }
}
