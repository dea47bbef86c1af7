/** Conservation: what every step of the semaphore keeps, over all runs. */
module GateConservation {
  import opened Wrappers
  import opened Reservations
  import opened GateModel

  // ------------------------------------------------------------ list measures

  lemma {:induction false} MeasureConcat(a: seq<Request>, b: seq<Request>, k: Intention)
    ensures Weight(a + b) == Weight(a) + Weight(b)
    ensures WeightOf(a + b, k) == WeightOf(a, k) + WeightOf(b, k)
    ensures Count(a + b, k) == Count(a, k) + Count(b, k)
    decreases |b|
  {
    if b == [] {
      assert a + b == a;
    } else {
      assert (a + b)[..|a + b| - 1] == a + b[..|b| - 1];
      MeasureConcat(a, b[..|b| - 1], k);
    }
  }

  lemma MeasureOne(r: Request, k: Intention)
    ensures Weight([r]) == r.weight
    ensures WeightOf([r], k) == if r.intention == k then r.weight else 0
    ensures Count([r], k) == if r.intention == k then 1 else 0
  {
    assert [r][..0] == [];
  }

  lemma MeasureWithout(s: seq<Request>, i: nat, k: Intention)
    requires i < |s|
    ensures Weight(Without(s, i)) == Weight(s) - s[i].weight
    ensures WeightOf(Without(s, i), k) == WeightOf(s, k) - (if s[i].intention == k then s[i].weight else 0)
    ensures Count(Without(s, i), k) == Count(s, k) - (if s[i].intention == k then 1 else 0)
  {
    assert s == (s[..i] + [s[i]]) + s[i + 1..];
    MeasureConcat(s[..i] + [s[i]], s[i + 1..], k);
    MeasureConcat(s[..i], [s[i]], k);
    MeasureOne(s[i], k);
    MeasureConcat(s[..i], s[i + 1..], k);
  }

  lemma {:induction false} WeightOfAtMost(s: seq<Request>, k: Intention)
    ensures WeightOf(s, k) <= Weight(s)
  {
    if s != [] { WeightOfAtMost(s[..|s| - 1], k); }
  }

  lemma {:induction false} CountedIsPresent(s: seq<Request>, k: Intention) returns (i: nat)
    requires Count(s, k) > 0
    ensures i < |s| && s[i].intention == k
  {
    if s[|s| - 1].intention == k { i := |s| - 1; } else { i := CountedIsPresent(s[..|s| - 1], k); }
  }

  lemma {:induction false} PresentIsCounted(s: seq<Request>, i: nat)
    requires i < |s|
    ensures Count(s, s[i].intention) > 0
  {
    if i < |s| - 1 { PresentIsCounted(s[..|s| - 1], i); }
  }

  // ------------------------------------------------------------ the invariant

  /** `active` is the weight of the permits held or waiting for the release timer, in total
      and for each intention, and the timer is armed exactly when releases are pending. */
  ghost predicate Conserved(g: Gate) {
    && g.active == Weight(g.held) + Weight(g.pending)
    && (forall k :: Get(g.activeBy, k) == WeightOf(g.held, k) + WeightOf(g.pending, k))
    && (g.timerArmed <==> g.pending != [])
  }

  /** `queuedByIntention` counts `queue`. */
  ghost predicate Counted(g: Gate, queue: seq<Request>) {
    forall k :: Get(g.queuedBy, k) == Count(queue, k)
  }

  ghost predicate Valid(g: Gate) {
    Conserved(g) && Counted(g, g.waiters) && g.limit <= g.hardCap
  }

  lemma GrantConserves(g: Gate, r: Request)
    requires Conserved(g)
    ensures Conserved(Grant(g, r))
  {
    forall k ensures Get(Grant(g, r).activeBy, k) == WeightOf(Grant(g, r).held, k) + WeightOf(g.pending, k) {
      MeasureConcat(g.held, [r], k);
      MeasureOne(r, k);
    }
  }

  lemma UncountCounts(g: Gate, r: Request, before: seq<Request>, after: seq<Request>)
    requires Counted(g, before)
    requires forall k :: Count(after, k) == Count(before, k) - (if r.intention == k then 1 else 0)
    ensures Counted(Uncount(g, r.intention), after)
  {
    forall k ensures Get(Uncount(g, r.intention).queuedBy, k) == Count(after, k) {
      assert Count(after, k) == Count(before, k) - (if r.intention == k then 1 else 0);
    }
  }

  lemma CountAfterHead(kept: seq<Request>, todo: seq<Request>, k: Intention)
    requires todo != []
    ensures Count(kept + todo[1..], k) == Count(kept + todo, k) - (if todo[0].intention == k then 1 else 0)
  {
    assert Without(kept + todo, |kept|) == kept + todo[1..];
    MeasureWithout(kept + todo, |kept|, k);
  }

  /** One drained waiter leaves every counter exact. */
  lemma DrainStepKeeps(g: Gate, todo: seq<Request>, kept: seq<Request>)
    requires todo != [] && Conserved(g) && Counted(g, kept + todo)
    ensures var g' := Grant(Uncount(g, todo[0].intention), todo[0]);
            Conserved(g') && Counted(g', kept + todo[1..])
  {
    forall k ensures Count(kept + todo[1..], k) == Count(kept + todo, k) - (if todo[0].intention == k then 1 else 0) {
      CountAfterHead(kept, todo, k);
    }
    UncountCounts(g, todo[0], kept + todo, kept + todo[1..]);
    GrantConserves(Uncount(g, todo[0].intention), todo[0]);
  }

  lemma {:induction false} DrainConserves(g: Gate, todo: seq<Request>, kept: seq<Request>)
    requires Conserved(g) && Counted(g, kept + todo)
    ensures Conserved(Drain(g, todo, kept))
    ensures Counted(Drain(g, todo, kept), Drain(g, todo, kept).waiters)
    decreases |todo|
  {
    if todo == [] {
      assert kept + todo == kept;
    } else if CanGrant(g, todo[0].intention, todo[0].weight) {
      DrainStepKeeps(g, todo, kept);
      DrainConserves(Grant(Uncount(g, todo[0].intention), todo[0]), todo[1..], kept);
    } else {
      assert kept + [todo[0]] + todo[1..] == kept + todo;
      DrainConserves(g, todo[1..], kept + [todo[0]]);
    }
  }

  lemma DrainWaitersConserves(g: Gate)
    requires Valid(g)
    ensures Valid(DrainWaiters(g))
  {
    assert [] + g.waiters == g.waiters;
    if g.waiters != [] { DrainConserves(g, g.waiters, []); }
  }

  /** The clamps of the release batch never bite. */
  lemma {:induction false} SettleIsExact(active: int, activeBy: map<Intention, int>, batch: seq<Request>)
    requires active >= Weight(batch)
    requires forall k :: Get(activeBy, k) >= WeightOf(batch, k)
    ensures SettleActive(active, batch) == active - Weight(batch)
    ensures forall k :: Get(SettleBy(activeBy, batch), k) == Get(activeBy, k) - WeightOf(batch, k)
  {
    if batch != [] {
      var init := batch[..|batch| - 1];
      forall k ensures Get(activeBy, k) >= WeightOf(init, k) {
        assert Get(activeBy, k) >= WeightOf(batch, k);
      }
      SettleIsExact(active, activeBy, init);
      var k0 := batch[|batch| - 1].intention;
      assert Get(activeBy, k0) >= WeightOf(batch, k0);
    }
  }

  lemma SettlePendingConserves(g: Gate)
    requires Valid(g)
    ensures Valid(SettlePending(g))
    ensures SettlePending(g).active == Weight(g.held) == g.active - Weight(g.pending)
    ensures forall k :: Get(SettlePending(g).activeBy, k) == WeightOf(g.held, k)
  {
    SettleIsExact(g.active, g.activeBy, g.pending);
  }

  lemma ReleaseConserves(g: Gate, id: nat)
    requires Valid(g)
    ensures Valid(Release(g, id))
  {
    var i := IndexOf(g.held, id);
    if i >= 0 {
      MeasureWithout(g.held, i, "");
      MeasureConcat(g.pending, [g.held[i]], "");
      MeasureOne(g.held[i], "");
      forall k
        ensures WeightOf(Without(g.held, i), k) + WeightOf(g.pending + [g.held[i]], k) == WeightOf(g.held, k) + WeightOf(g.pending, k)
      {
        MeasureWithout(g.held, i, k);
        MeasureConcat(g.pending, [g.held[i]], k);
        MeasureOne(g.held[i], k);
      }
    }
  }

  lemma RemoveWaiterConserves(g: Gate, id: nat)
    requires Valid(g)
    ensures Valid(RemoveWaiter(g, id))
  {
    var i := IndexOf(g.waiters, id);
    if i >= 0 {
      forall k ensures Count(Without(g.waiters, i), k) == Count(g.waiters, k) - (if g.waiters[i].intention == k then 1 else 0) {
        MeasureWithout(g.waiters, i, k);
      }
      UncountCounts(g.(waiters := Without(g.waiters, i)), g.waiters[i], g.waiters, Without(g.waiters, i));
    }
  }

  lemma EnqueueConserves(g: Gate, r: Request)
    requires Valid(g)
    ensures Valid(Enqueue(g, r))
  {
    forall k ensures Get(Enqueue(g, r).queuedBy, k) == Count(Enqueue(g, r).waiters, k) {
      MeasureConcat(g.waiters, [r], k);
      MeasureOne(r, k);
    }
  }

  lemma {:induction false} WithKeysReadsSame(m: map<Intention, int>, rs: seq<Reservation>, k: Intention)
    ensures Get(WithKeys(m, rs), k) == Get(m, k)
  {
    if rs != [] { WithKeysReadsSame(m, rs[..|rs| - 1], k); }
  }

  lemma ReconfigureConserves(g: Gate, d: Option<int>, rs: Option<Record>)
    requires Valid(g)
    ensures Valid(Reconfigure(g, d, rs))
  {
    if rs.Some? {
      forall k
        ensures Get(WithKeys(g.activeBy, rs.value), k) == Get(g.activeBy, k)
        ensures Get(WithKeys(g.queuedBy, rs.value), k) == Get(g.queuedBy, k)
      {
        WithKeysReadsSame(g.activeBy, rs.value, k);
        WithKeysReadsSame(g.queuedBy, rs.value, k);
      }
    }
  }

  lemma FreshIsValid(hardCap: int, softLimit: int, depth: int, rs: Record)
    ensures Valid(Fresh(hardCap, softLimit, depth, rs))
  {
    forall k ensures Get(WithKeys(map[], rs), k) == 0 {
      WithKeysReadsSame(map[], rs, k);
    }
  }

  lemma AcquireConserves(g: Gate, i: Intention, w: int, p: bool)
    requires Valid(g)
    ensures Valid(Acquire(g, i, w, p).0)
  {
    if w > 0 {
      var r, g1 := Request(g.arrivals, i, w, p), g.(arrivals := g.arrivals + 1);
      assert Valid(g1);
      GrantConserves(g1, r);
      EnqueueConserves(g1, r);
      assert Valid(Grant(g1, r)) && Valid(Enqueue(g1, r));
      assert Acquire(g, i, w, p).0 in {g1, Grant(g1, r), Enqueue(g1, r)};
    }
  }

  lemma TimerConserves(g: Gate)
    requires Valid(g)
    ensures Valid(FireTimer(g))
  {
    SettlePendingConserves(g);
    DrainWaitersConserves(SettlePending(g));
  }

  lemma LimitsConserve(g: Gate, n: int)
    requires Valid(g)
    ensures Valid(Resize(g, n)) && Valid(SetHardCap(g, n)) && Valid(SetSoftLimit(g, n))
  {
    var clamped: Limit := Max(SCALE, Min(n, g.hardCap));
    DrainWaitersConserves(g.(limit := clamped));
    var cap: Limit := Max(1, n) * SCALE;
    var g1 := g.(hardCap := cap, softLimit := Min(g.softLimit, cap));
    DrainWaitersConserves(g1.(limit := cap));
  }

  /** Every step keeps every counter exact. */
  lemma StepConserves(g: Gate, s: Step)
    requires Valid(g)
    ensures Valid(Apply(g, s))
  {
    match s
    case AcquireStep(i, w, p) => AcquireConserves(g, i, w, p);
    case ReleaseStep(id) => ReleaseConserves(g, id);
    case TimerStep => TimerConserves(g);
    case RemoveStep(id) => RemoveWaiterConserves(g, id);
    case ResizeStep(n) => LimitsConserve(g, n);
    case HardCapStep(n) => LimitsConserve(g, n);
    case SoftLimitStep(n) => LimitsConserve(g, n);
    case ReconfigureStep(d, rs) => ReconfigureConserves(g, d, rs);
  }

  /** Conservation over every run of a new gate: `active` is the weight of the permits held
      or pending, per intention as well; the queue counters count the queue; the release
      timer is armed exactly when there is something to release. */
  lemma {:induction false} ConservationOverRuns(g: Gate, steps: seq<Step>)
    requires Valid(g)
    ensures Valid(Run(g, steps))
  {
    if steps != [] {
      ConservationOverRuns(g, steps[..|steps| - 1]);
      StepConserves(Run(g, steps[..|steps| - 1]), steps[|steps| - 1]);
    }
  }

  // ------------------------------------------------------------ the sum over intentions

  ghost function Total(m: map<Intention, int>, keys: set<Intention>): int
    requires keys <= m.Keys
  {
    if keys == {} then 0
    else var k :| k in keys; m[k] + Total(m, keys - {k})
  }

  lemma {:induction false} TotalRemove(m: map<Intention, int>, keys: set<Intention>, k: Intention)
    requires keys <= m.Keys && k in keys
    ensures Total(m, keys) == m[k] + Total(m, keys - {k})
    decreases |keys|
  {
    var k' :| k' in keys && Total(m, keys) == m[k'] + Total(m, keys - {k'});
    if k' != k {
      TotalRemove(m, keys - {k'}, k);
      TotalRemove(m, keys - {k}, k');
      assert keys - {k'} - {k} == keys - {k} - {k'};
    }
  }

  /** Adding one request to the lists adds its weight to the sum over intentions. */
  lemma {:induction false} TotalIsWeight(m: map<Intention, int>, keys: set<Intention>, s: seq<Request>)
    requires keys <= m.Keys
    requires forall r :: r in s ==> r.intention in keys
    requires forall k :: k in keys ==> m[k] == WeightOf(s, k)
    ensures Total(m, keys) == Weight(s)
    decreases |s|
  {
    if s == [] {
      TotalOfZeros(m, keys);
    } else {
      var r, init := s[|s| - 1], s[..|s| - 1];
      var m' := m[r.intention := m[r.intention] - r.weight];
      assert r in s;
      TotalIsWeight(m', keys, init);
      TotalRemove(m, keys, r.intention);
      TotalRemove(m', keys, r.intention);
      TotalAgree(m, m', keys - {r.intention});
    }
  }

  lemma {:induction false} TotalOfZeros(m: map<Intention, int>, keys: set<Intention>)
    requires keys <= m.Keys && forall k :: k in keys ==> m[k] == 0
    ensures Total(m, keys) == 0
    decreases |keys|
  {
    if keys != {} {
      var k :| k in keys && Total(m, keys) == m[k] + Total(m, keys - {k});
      TotalOfZeros(m, keys - {k});
    }
  }

  lemma {:induction false} TotalAgree(m: map<Intention, int>, m': map<Intention, int>, keys: set<Intention>)
    requires keys <= m.Keys && keys <= m'.Keys
    requires forall k :: k in keys ==> m[k] == m'[k]
    ensures Total(m, keys) == Total(m', keys)
    decreases |keys|
  {
    if keys != {} {
      var k :| k in keys && Total(m, keys) == m[k] + Total(m, keys - {k});
      TotalRemove(m', keys, k);
      TotalAgree(m, m', keys - {k});
    }
  }

  /** In every valid state `active` is the sum of `activeByIntention` over all intentions. */
  lemma ActiveIsSumOverIntentions(g: Gate)
    requires Valid(g)
    ensures Total(g.activeBy, g.activeBy.Keys) == g.active
  {
    var all := g.held + g.pending;
    MeasureConcat(g.held, g.pending, "");
    forall k ensures WeightOf(all, k) == Get(g.activeBy, k) {
      MeasureConcat(g.held, g.pending, k);
    }
    forall r | r in all ensures r.intention in g.activeBy.Keys {
      var i :| 0 <= i < |all| && all[i] == r;
      MeasureWithout(all, i, r.intention);
      assert WeightOf(all, r.intention) == Get(g.activeBy, r.intention);
    }
    TotalIsWeight(g.activeBy, g.activeBy.Keys, all);
  }

  // ------------------------------------------------------------ the bound

  /** From `g` to `g'`: `active` did not rise above the limit now in force, and if anything
      was granted it is within that limit. */
  ghost predicate WithinLimit(g: Gate, g': Gate) {
    g'.active <= Max(g.active, g'.limit) && (|g'.granted| > |g.granted| ==> g'.active <= g'.limit)
  }

  lemma DrainWithinLimit(g: Gate, h: Gate)
    requires h.active <= g.active && h.granted == g.granted
    ensures WithinLimit(g, DrainWaiters(h))
  {
    DrainGrantBound(h, h.waiters, []);
  }

  lemma LimitsWithinLimit(g: Gate, n: int)
    ensures WithinLimit(g, Resize(g, n)) && WithinLimit(g, SetHardCap(g, n))
  {
    var clamped: Limit := Max(SCALE, Min(n, g.hardCap));
    DrainWithinLimit(g, g.(limit := clamped));
    var cap: Limit := Max(1, n) * SCALE;
    var g1 := g.(hardCap := cap, softLimit := Min(g.softLimit, cap));
    DrainWithinLimit(g, g1.(limit := cap));
  }

  /** No step raises `active` above the limit in force after it, and no grant does. */
  lemma StepBound(g: Gate, s: Step)
    requires Valid(g)
    ensures WithinLimit(g, Apply(g, s))
  {
    match s
    case AcquireStep(i, w, p) =>
    case ReleaseStep(id) =>
    case TimerStep =>
      SettlePendingConserves(g);
      DrainWithinLimit(g, SettlePending(g));
    case RemoveStep(id) =>
    case ResizeStep(n) => LimitsWithinLimit(g, n);
    case HardCapStep(n) => LimitsWithinLimit(g, n);
    case SoftLimitStep(n) =>
    case ReconfigureStep(d, rs) =>
  }

  lemma {:induction false} DrainGrantBound(g: Gate, todo: seq<Request>, kept: seq<Request>)
    ensures var d := Drain(g, todo, kept);
            |d.granted| >= |g.granted| && (|d.granted| > |g.granted| ==> d.active <= d.limit)
    decreases |todo|
  {
    if todo != [] {
      if CanGrant(g, todo[0].intention, todo[0].weight) {
        DrainGrantBound(Grant(Uncount(g, todo[0].intention), todo[0]), todo[1..], kept);
      } else {
        DrainGrantBound(g, todo[1..], kept + [todo[0]]);
      }
    }
  }

  /** The largest limit the gate has had in a run. */
  function PeakLimit(g: Gate, steps: seq<Step>): int {
    if steps == [] then g.limit
    else Max(PeakLimit(g, steps[..|steps| - 1]), Run(g, steps).limit)
  }

  /** `active` never exceeds the largest limit the run has had, whatever is resized when. */
  lemma {:induction false} ActiveWithinPeakLimit(g: Gate, steps: seq<Step>)
    requires Valid(g) && g.active <= g.limit
    ensures Run(g, steps).active <= PeakLimit(g, steps)
  {
    if steps != [] {
      var init := steps[..|steps| - 1];
      ActiveWithinPeakLimit(g, init);
      ConservationOverRuns(g, init);
      StepBound(Run(g, init), steps[|steps| - 1]);
    }
  }
}
