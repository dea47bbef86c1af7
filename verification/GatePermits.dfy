/** The life of one request: it is granted at most once, its permit is in one place at a
    time, and releasing it counts once, however often and however late it is released. */
module GatePermits {
  import opened Wrappers
  import opened Reservations
  import opened GateModel
  import opened GateConservation

  /** No two members share an arrival number, and all of them have arrived. */
  ghost predicate Unique(all: multiset<Request>, arrivals: nat) {
    && (forall r :: r in all ==> all[r] == 1 && r.id < arrivals)
    && (forall r, s :: r in all && s in all && r.id == s.id ==> r == s)
  }

  /** A request is granted or waiting, never both; the permits not yet settled are distinct
      grants. */
  ghost predicate Traced(g: Gate, queue: seq<Request>) {
    && Unique(multiset(g.granted) + multiset(queue), g.arrivals)
    && multiset(g.held) + multiset(g.pending) <= multiset(g.granted)
  }

  lemma WithoutTakesOne(s: seq<Request>, i: nat)
    requires i < |s|
    ensures multiset(s) == multiset(Without(s, i)) + multiset{s[i]}
  {
    assert s == s[..i] + [s[i]] + s[i + 1..];
  }

  lemma EqualPairCounts(s: seq<Request>, a: nat, b: nat)
    requires a < b < |s|
    ensures s[a] == s[b] ==> multiset(s)[s[a]] >= 2
  {
    assert s == s[..b] + [s[b]] + s[b + 1..];
    assert s[..b][a] == s[a] && s[a] in multiset(s[..b]);
  }

  lemma FewerStayUnique(all: multiset<Request>, some: multiset<Request>, arrivals: nat)
    requires Unique(all, arrivals) && some <= all
    ensures Unique(some, arrivals)
  {
    forall r | r in some ensures some[r] == 1 && r.id < arrivals {
      assert r in all;
    }
  }

  lemma NewcomerIsUnique(all: multiset<Request>, r: Request, arrivals: nat)
    requires Unique(all, arrivals) && r.id == arrivals
    ensures Unique(all, arrivals + 1) && Unique(all + multiset{r}, arrivals + 1)
  {
    assert r !in all;
  }

  // ------------------------------------------------------------ every step

  lemma ServeTraced(g: Gate, todo: seq<Request>, kept: seq<Request>)
    requires todo != [] && Traced(g, kept + todo)
    ensures Traced(Grant(Uncount(g, todo[0].intention), todo[0]), kept + todo[1..])
  {
    assert todo == [todo[0]] + todo[1..];
    var g' := Grant(Uncount(g, todo[0].intention), todo[0]);
    assert multiset(g'.granted) + multiset(kept + todo[1..]) == multiset(g.granted) + multiset(kept + todo);
    assert multiset(g'.held) == multiset(g.held) + multiset{todo[0]};
  }

  lemma {:induction false} DrainTraced(g: Gate, todo: seq<Request>, kept: seq<Request>)
    requires Traced(g, kept + todo)
    ensures Traced(Drain(g, todo, kept), Drain(g, todo, kept).waiters)
    decreases |todo|
  {
    if todo == [] {
      assert kept + todo == kept;
    } else if CanGrant(g, todo[0].intention, todo[0].weight) {
      ServeTraced(g, todo, kept);
      DrainTraced(Grant(Uncount(g, todo[0].intention), todo[0]), todo[1..], kept);
    } else {
      assert kept + [todo[0]] + todo[1..] == kept + todo;
      DrainTraced(g, todo[1..], kept + [todo[0]]);
    }
  }

  lemma DrainWaitersTraced(g: Gate)
    requires Traced(g, g.waiters)
    ensures Traced(DrainWaiters(g), DrainWaiters(g).waiters)
  {
    assert [] + g.waiters == g.waiters;
    if g.waiters != [] { DrainTraced(g, g.waiters, []); }
  }

  lemma GrantTraced(g: Gate, r: Request)
    requires Traced(g, g.waiters) && r.id == g.arrivals
    ensures Traced(Grant(g.(arrivals := g.arrivals + 1), r), g.waiters)
  {
    var all := multiset(g.granted) + multiset(g.waiters);
    NewcomerIsUnique(all, r, g.arrivals);
    assert multiset(g.granted + [r]) + multiset(g.waiters) == all + multiset{r};
    assert multiset(g.held + [r]) == multiset(g.held) + multiset{r};
  }

  lemma EnqueueTraced(g: Gate, r: Request)
    requires Traced(g, g.waiters) && r.id == g.arrivals
    ensures Traced(g.(arrivals := g.arrivals + 1), g.waiters)
    ensures Traced(Enqueue(g.(arrivals := g.arrivals + 1), r), g.waiters + [r])
  {
    var all := multiset(g.granted) + multiset(g.waiters);
    NewcomerIsUnique(all, r, g.arrivals);
    assert multiset(g.granted) + multiset(g.waiters + [r]) == all + multiset{r};
  }

  lemma AcquireCases(g: Gate, r: Request)
    requires r.id == g.arrivals
    ensures var h, g1 := Acquire(g, r.intention, r.weight, r.wasProbe).0, g.(arrivals := g.arrivals + 1);
            h == Grant(g1, r) || h == g1 || h == Enqueue(g1, r)
  {
  }

  lemma AcquireTraced(g: Gate, r: Request)
    requires Traced(g, g.waiters) && r.id == g.arrivals
    ensures var h := Acquire(g, r.intention, r.weight, r.wasProbe).0; Traced(h, h.waiters)
  {
    var h, g1 := Acquire(g, r.intention, r.weight, r.wasProbe).0, g.(arrivals := g.arrivals + 1);
    AcquireCases(g, r);
    if h == Grant(g1, r) {
      GrantTraced(g, r);
    } else {
      EnqueueTraced(g, r);
    }
  }

  lemma ReleaseTraced(g: Gate, id: nat)
    requires Traced(g, g.waiters)
    ensures Traced(Release(g, id), g.waiters)
  {
    var i := IndexOf(g.held, id);
    if i >= 0 { WithoutTakesOne(g.held, i); }
  }

  lemma RemoveTraced(g: Gate, id: nat)
    requires Traced(g, g.waiters)
    ensures Traced(RemoveWaiter(g, id), RemoveWaiter(g, id).waiters)
  {
    var i := IndexOf(g.waiters, id);
    if i >= 0 {
      WithoutTakesOne(g.waiters, i);
      FewerStayUnique(multiset(g.granted) + multiset(g.waiters), multiset(g.granted) + multiset(Without(g.waiters, i)), g.arrivals);
    }
  }

  lemma LimitsTraced(g: Gate, n: int)
    requires Traced(g, g.waiters)
    ensures Traced(Resize(g, n), Resize(g, n).waiters) && Traced(SetHardCap(g, n), SetHardCap(g, n).waiters)
  {
    var clamped: Limit := Max(SCALE, Min(n, g.hardCap));
    DrainWaitersTraced(g.(limit := clamped));
    var cap: Limit := Max(1, n) * SCALE;
    var g1 := g.(hardCap := cap, softLimit := Min(g.softLimit, cap));
    if g.limit > cap { DrainWaitersTraced(g1.(limit := cap)); }
  }

  lemma StepTraced(g: Gate, s: Step)
    requires Traced(g, g.waiters)
    ensures Traced(Apply(g, s), Apply(g, s).waiters)
  {
    match s
    case AcquireStep(i, w, p) => if w > 0 { AcquireTraced(g, Request(g.arrivals, i, w, p)); }
    case ReleaseStep(id) => ReleaseTraced(g, id);
    case TimerStep => DrainWaitersTraced(SettlePending(g));
    case RemoveStep(id) => RemoveTraced(g, id);
    case ResizeStep(n) => LimitsTraced(g, n);
    case HardCapStep(n) => LimitsTraced(g, n);
    case SoftLimitStep(n) =>
    case ReconfigureStep(d, rs) =>
  }

  lemma {:induction false} TracedOverRuns(g: Gate, steps: seq<Step>)
    requires Traced(g, g.waiters)
    ensures Traced(Run(g, steps), Run(g, steps).waiters)
  {
    if steps != [] {
      TracedOverRuns(g, steps[..|steps| - 1]);
      StepTraced(Run(g, steps[..|steps| - 1]), steps[|steps| - 1]);
    }
  }

  // ------------------------------------------------------------ a release counts once

  /** Request `id` has arrived and is neither waiting nor holding a permit. */
  ghost predicate Over(g: Gate, queue: seq<Request>, id: nat) {
    && id < g.arrivals
    && (forall r :: r in g.held ==> r.id != id)
    && (forall r :: r in queue ==> r.id != id)
  }

  lemma ReleaseEnds(g: Gate, id: nat)
    requires Traced(g, g.waiters) && IndexOf(g.held, id) >= 0
    ensures Over(Release(g, id), g.waiters, id)
  {
    var i := IndexOf(g.held, id);
    var r := g.held[i];
    var all := multiset(g.granted) + multiset(g.waiters);
    WithoutTakesOne(g.held, i);
    assert r in multiset(g.held);
    assert r in multiset(g.granted) && r in all && all[r] == 1;
    forall x | x in Without(g.held, i) ensures x.id != id {
      assert x in multiset(Without(g.held, i));
      assert x in multiset(g.held) && x in all;
      assert multiset(g.held)[r] <= all[r];
    }
    forall x | x in g.waiters ensures x.id != id {
      assert x in multiset(g.waiters) && x in all;
    }
  }

  lemma {:induction false} DrainLeavesOver(g: Gate, todo: seq<Request>, kept: seq<Request>, id: nat)
    requires Over(g, kept + todo, id)
    ensures Over(Drain(g, todo, kept), Drain(g, todo, kept).waiters, id)
    decreases |todo|
  {
    if todo == [] {
      assert kept + todo == kept;
    } else {
      assert (kept + todo)[|kept|] == todo[0];
      assert forall x :: x in kept + todo[1..] ==> x in kept + todo;
      if CanGrant(g, todo[0].intention, todo[0].weight) {
        DrainLeavesOver(Grant(Uncount(g, todo[0].intention), todo[0]), todo[1..], kept, id);
      } else {
        assert kept + [todo[0]] + todo[1..] == kept + todo;
        DrainLeavesOver(g, todo[1..], kept + [todo[0]], id);
      }
    }
  }

  lemma DrainWaitersLeavesOver(g: Gate, id: nat)
    requires Over(g, g.waiters, id)
    ensures Over(DrainWaiters(g), DrainWaiters(g).waiters, id)
  {
    assert [] + g.waiters == g.waiters;
    if g.waiters != [] { DrainLeavesOver(g, g.waiters, [], id); }
  }

  lemma LimitsLeaveOver(g: Gate, n: int, id: nat)
    requires Over(g, g.waiters, id)
    ensures Over(Resize(g, n), Resize(g, n).waiters, id) && Over(SetHardCap(g, n), SetHardCap(g, n).waiters, id)
  {
    var clamped: Limit := Max(SCALE, Min(n, g.hardCap));
    DrainWaitersLeavesOver(g.(limit := clamped), id);
    var cap: Limit := Max(1, n) * SCALE;
    var g1 := g.(hardCap := cap, softLimit := Min(g.softLimit, cap));
    if g.limit > cap { DrainWaitersLeavesOver(g1.(limit := cap), id); }
  }

  lemma StepLeavesOver(g: Gate, s: Step, id: nat)
    requires Over(g, g.waiters, id)
    ensures Over(Apply(g, s), Apply(g, s).waiters, id)
  {
    match s
    case AcquireStep(i, w, p) =>
    case ReleaseStep(n) => assert forall r :: r in Release(g, n).held ==> r in g.held;
    case TimerStep => DrainWaitersLeavesOver(SettlePending(g), id);
    case RemoveStep(n) => assert forall r :: r in RemoveWaiter(g, n).waiters ==> r in g.waiters;
    case ResizeStep(n) => LimitsLeaveOver(g, n, id);
    case HardCapStep(n) => LimitsLeaveOver(g, n, id);
    case SoftLimitStep(n) =>
    case ReconfigureStep(d, rs) =>
  }

  lemma {:induction false} OverStaysOver(g: Gate, steps: seq<Step>, id: nat)
    requires Over(g, g.waiters, id)
    ensures Over(Run(g, steps), Run(g, steps).waiters, id)
  {
    if steps != [] {
      OverStaysOver(g, steps[..|steps| - 1], id);
      StepLeavesOver(Run(g, steps[..|steps| - 1]), steps[|steps| - 1], id);
    }
  }

  /** A permit released once is released for good: after any further steps, releasing it
      again changes nothing at all. */
  lemma ReleaseCountsOnce(hardCap: int, softLimit: int, depth: int, rs: Record, before: seq<Step>, id: nat, after: seq<Step>)
    requires IndexOf(Run(Fresh(hardCap, softLimit, depth, rs), before).held, id) >= 0
    ensures var h := Run(Release(Run(Fresh(hardCap, softLimit, depth, rs), before), id), after);
            Release(h, id) == h
  {
    var g := Run(Fresh(hardCap, softLimit, depth, rs), before);
    TracedOverRuns(Fresh(hardCap, softLimit, depth, rs), before);
    ReleaseEnds(g, id);
    OverStaysOver(Release(g, id), after, id);
  }

  /** Nobody is granted twice, nobody granted still waits, and at every moment a granted
      permit is held, pending or settled, in at most one of the first two. */
  lemma GrantedOnce(hardCap: int, softLimit: int, depth: int, rs: Record, steps: seq<Step>)
    ensures var g := Run(Fresh(hardCap, softLimit, depth, rs), steps);
            && (forall a, b :: 0 <= a < b < |g.granted| ==> g.granted[a].id != g.granted[b].id)
            && (forall x, y :: x in g.granted && y in g.waiters ==> x.id != y.id)
            && multiset(g.held) + multiset(g.pending) <= multiset(g.granted)
  {
    TracedOverRuns(Fresh(hardCap, softLimit, depth, rs), steps);
    var g := Run(Fresh(hardCap, softLimit, depth, rs), steps);
    var gs, all := multiset(g.granted), multiset(g.granted) + multiset(g.waiters);
    forall a, b | 0 <= a < b < |g.granted| ensures g.granted[a].id != g.granted[b].id {
      var x, y := g.granted[a], g.granted[b];
      assert x in gs && y in gs && all[x] == 1;
      EqualPairCounts(g.granted, a, b);
    }
    forall x, y | x in g.granted && y in g.waiters ensures x.id != y.id {
      assert x in gs && y in multiset(g.waiters) && all[x] == 1;
    }
  }

  // ------------------------------------------------------------ the queue bound

  /** The largest queue depth configured in a run, 0 at least. */
  function PeakDepth(g: Gate, steps: seq<Step>): int {
    if steps == [] then Max(0, g.maxQueueDepth)
    else Max(PeakDepth(g, steps[..|steps| - 1]), Run(g, steps).maxQueueDepth)
  }

  lemma {:induction false} DrainShortens(g: Gate, todo: seq<Request>, kept: seq<Request>)
    ensures |Drain(g, todo, kept).waiters| <= |kept| + |todo|
    decreases |todo|
  {
    if todo != [] {
      if CanGrant(g, todo[0].intention, todo[0].weight) {
        DrainShortens(Grant(Uncount(g, todo[0].intention), todo[0]), todo[1..], kept);
      } else {
        DrainShortens(g, todo[1..], kept + [todo[0]]);
      }
    }
  }

  lemma StepQueueBound(g: Gate, s: Step)
    ensures |Apply(g, s).waiters| <= Max(|g.waiters|, g.maxQueueDepth)
  {
    DrainShortens(SettlePending(g), g.waiters, []);
    match s
    case ResizeStep(n) =>
      var clamped: Limit := Max(SCALE, Min(n, g.hardCap));
      DrainShortens(g.(limit := clamped), g.waiters, []);
    case HardCapStep(n) =>
      var cap: Limit := Max(1, n) * SCALE;
      DrainShortens(g.(hardCap := cap, softLimit := Min(g.softLimit, cap), limit := cap), g.waiters, []);
    case _ =>
  }

  /** The queue is never longer than the largest depth the run has configured. */
  lemma {:induction false} QueueWithinPeakDepth(g: Gate, steps: seq<Step>)
    requires |g.waiters| <= Max(0, g.maxQueueDepth)
    ensures |Run(g, steps).waiters| <= PeakDepth(g, steps)
  {
    if steps != [] {
      var init := steps[..|steps| - 1];
      QueueWithinPeakDepth(g, init);
      StepQueueBound(Run(g, init), steps[|steps| - 1]);
      if init != [] { assert Run(g, init).maxQueueDepth <= PeakDepth(g, init); }
    }
  }
}
