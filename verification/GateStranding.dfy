/** The other half of the progress theorem: a configuration that is not roomy does strand
    waiters, in a run built here from acquires, releases and one release batch. */
module GateStranding {
  import opened Wrappers
  import opened Reservations
  import opened GateModel
  import opened GateConservation
  import opened GateScheduling
  import opened GatePlain
  import opened GateProgress

  /** Steps that leave the configuration alone, with requests of weight at most `w`. */
  predicate FixedStep(s: Step, w: int) {
    match s
    case AcquireStep(_, v, _) => v <= w
    case ReleaseStep(_) => true
    case TimerStep => true
    case RemoveStep(_) => true
    case _ => false
  }

  ghost predicate FixedRun(steps: seq<Step>, w: int) {
    forall s :: s in steps ==> FixedStep(s, w)
  }

  ghost predicate SameConfig(g: Gate, h: Gate) {
    h.limit == g.limit && h.reservations == g.reservations && h.maxQueueDepth == g.maxQueueDepth
  }

  lemma {:induction false} RunConcat(g: Gate, a: seq<Step>, b: seq<Step>)
    ensures Run(g, a + b) == Run(Run(g, a), b)
    decreases |b|
  {
    if b == [] {
      assert a + b == a;
    } else {
      assert (a + b)[..|a + b| - 1] == a + b[..|b| - 1];
      RunConcat(g, a, b[..|b| - 1]);
    }
  }

  lemma RunOne(g: Gate, s: Step, rest: seq<Step>)
    ensures Run(g, [s] + rest) == Run(Apply(g, s), rest)
  {
    RunConcat(g, [s], rest);
    assert [s][..0] == [];
  }

  lemma {:induction false} FixedRunsAreRoomy(g: Gate, steps: seq<Step>, w: int, d: Pos)
    requires FixedRun(steps, w) && g.maxQueueDepth <= d && Roomy(g.reservations, g.limit, w, d)
    ensures SameConfig(g, Run(g, steps)) && RoomyRun(g, steps, w, d)
  {
    if steps != [] {
      assert steps[|steps| - 1] in steps;
      FixedRunsAreRoomy(g, steps[..|steps| - 1], w, d);
      assert FixedStep(steps[|steps| - 1], w);
    }
  }

  // ------------------------------------------------------------ building the run

  lemma AloneTakes(g: Gate, z: Intention, w: Pos)
    requires Valid(g) && g.waiters == [] && Alone(g, [], z) && g.active + w <= g.limit
    ensures var h := Acquire(g, z, w, false).0;
            Valid(h) && h.waiters == [] && Alone(h, [], z) && SameConfig(g, h) && h.active == g.active + w
  {
    AloneFits(g, [], z, w);
    AcquireConserves(g, z, w, false);
  }

  /** Phase 1: one intention takes permits until no request of weight `w` fits. */
  lemma {:induction false} Fill(g: Gate, z: Intention, w: Pos) returns (steps: seq<Step>)
    requires Valid(g) && g.waiters == [] && Alone(g, [], z)
    ensures FixedRun(steps, w)
    ensures var h := Run(g, steps); Valid(h) && SameConfig(g, h) && h.waiters == [] && h.active + w > h.limit
    decreases g.limit - g.active
  {
    if g.active + w > g.limit {
      steps := [];
    } else {
      var s := AcquireStep(z, w, false);
      AloneTakes(g, z, w);
      var rest := Fill(Apply(g, s), z, w);
      steps := [s] + rest;
      RunOne(g, s, rest);
    }
  }

  /** The last reservation belongs to the best choice of `d`. */
  predicate Takes(rs: seq<Reservation>, w: int, d: nat)
    requires rs != [] && d > 0
  {
    rs[|rs| - 1].amount < w && Best(rs[..|rs| - 1], w, d - 1) + rs[|rs| - 1].amount > Best(rs[..|rs| - 1], w, d)
  }

  /** A choice of at most `d` reservations below `w` that adds up to the most. */
  function Pick(rs: seq<Reservation>, w: int, d: nat): (es: seq<Reservation>)
    ensures |es| <= d && Sum(es) == Best(rs, w, d)
    ensures forall e :: e in es ==> e in rs && e.amount < w
  {
    if rs == [] || d == 0 then []
    else
      var init, e := rs[..|rs| - 1], rs[|rs| - 1];
      if Takes(rs, w, d) then
        var es := Pick(init, w, d - 1);
        assert (es + [e])[..|es|] == es;
        es + [e]
      else Pick(init, w, d)
  }

  /** Every waiter asks for `w` on behalf of an intention of `es`. */
  ghost predicate SmallOnly(q: seq<Request>, es: seq<Reservation>, w: int) {
    forall r :: r in q ==> r.weight == w && exists e :: e in es && e.key == r.intention
  }

  /** Every reservation of `es` has a waiter. */
  ghost predicate SmallQueued(q: seq<Request>, es: seq<Reservation>) {
    forall e :: e in es ==> Count(q, e.key) > 0
  }

  /** A state of phase 2: full, with one waiter for each reservation of `es`. */
  ghost predicate Lined(g: Gate, es: seq<Reservation>, w: int) {
    Valid(g) && g.active + w > g.limit && |g.waiters| <= |es| && SmallOnly(g.waiters, es, w) && SmallQueued(g.waiters, es)
  }

  lemma FullRefuses(g: Gate, k: Intention, w: Pos)
    requires Valid(g) && g.active + w > g.limit && |g.waiters| < g.maxQueueDepth
    ensures var h := Acquire(g, k, w, false).0;
            Valid(h) && SameConfig(g, h) && h.active == g.active && h.waiters == g.waiters + [Request(g.arrivals, k, w, false)]
  {
    AcquireConserves(g, k, w, false);
    assert !CanGrant(g, k, w);
  }

  lemma LineGrows(q: seq<Request>, r: Request, es: seq<Reservation>, w: Pos)
    requires es != [] && r.intention == es[|es| - 1].key && r.weight == w
    requires SmallOnly(q, es[..|es| - 1], w) && SmallQueued(q, es[..|es| - 1])
    ensures SmallOnly(q + [r], es, w) && SmallQueued(q + [r], es)
  {
    var init, e := es[..|es| - 1], es[|es| - 1];
    assert es == init + [e];
    forall x | x in es ensures Count(q + [r], x.key) > 0 {
      MeasureConcat(q, [r], x.key);
      MeasureOne(r, x.key);
    }
  }

  /** Phase 2: one request of weight `w` queues up for each chosen reservation. */
  lemma {:induction false} QueueUp(g: Gate, es: seq<Reservation>, w: Pos) returns (steps: seq<Step>)
    requires Valid(g) && g.active + w > g.limit && g.waiters == [] && |es| <= g.maxQueueDepth
    ensures FixedRun(steps, w)
    ensures var h := Run(g, steps); Lined(h, es, w) && SameConfig(g, h) && h.active == g.active
    decreases |es|
  {
    if es == [] {
      steps := [];
    } else {
      var init, e := es[..|es| - 1], es[|es| - 1];
      steps := QueueUp(g, init, w);
      var h, s := Run(g, steps), AcquireStep(e.key, w, false);
      FullRefuses(h, e.key, w);
      LineGrows(h.waiters, Request(h.arrivals, e.key, w, false), es, w);
      RunLast(g, steps, s);
      steps := steps + [s];
    }
  }

  lemma RunLast(g: Gate, steps: seq<Step>, s: Step)
    ensures Run(g, steps + [s]) == Apply(Run(g, steps), s)
  {
    assert (steps + [s])[..|steps|] == steps;
  }

  /** Phase 3: every held permit is released. */
  lemma {:induction false} ReleaseAll(g: Gate, w: int) returns (steps: seq<Step>)
    requires Valid(g)
    ensures FixedRun(steps, w)
    ensures var h := Run(g, steps);
            && Valid(h) && SameConfig(g, h) && h.held == []
            && h.active == g.active && h.waiters == g.waiters
    decreases |g.held|
  {
    if g.held == [] {
      steps := [];
    } else {
      var s := ReleaseStep(g.held[0].id);
      ReleaseConserves(g, g.held[0].id);
      var rest := ReleaseAll(Apply(g, s), w);
      steps := [s] + rest;
      RunOne(g, s, rest);
    }
  }

  lemma {:induction false} DrainOfRefused(g: Gate, todo: seq<Request>, kept: seq<Request>)
    requires Refused(g, todo)
    ensures Drain(g, todo, kept) == g.(waiters := kept + todo)
    decreases |todo|
  {
    if todo == [] {
      assert kept + todo == kept;
    } else {
      assert todo[0] in todo;
      assert kept + [todo[0]] + todo[1..] == kept + todo;
      DrainOfRefused(g, todo[1..], kept + [todo[0]]);
    }
  }

  // ------------------------------------------------------------ nobody fits

  lemma SmallQueuedSplits(q: seq<Request>, es: seq<Reservation>, e: Reservation)
    requires SmallQueued(q, es + [e])
    ensures SmallQueued(q, es) && Count(q, e.key) > 0
  {
    assert e in es + [e];
    forall x | x in es ensures Count(q, x.key) > 0 {
      assert x in es + [e];
    }
  }

  /** The picks made before the last entry wait too, and the last one if it was picked. */
  lemma PickedBefore(rs: seq<Reservation>, q: seq<Request>, w: int, d: nat)
    requires rs != [] && d > 0 && SmallQueued(q, Pick(rs, w, d))
    ensures Takes(rs, w, d) ==> SmallQueued(q, Pick(rs[..|rs| - 1], w, d - 1)) && Count(q, rs[|rs| - 1].key) > 0
    ensures !Takes(rs, w, d) ==> SmallQueued(q, Pick(rs[..|rs| - 1], w, d))
  {
    if Takes(rs, w, d) {
      SmallQueuedSplits(q, Pick(rs[..|rs| - 1], w, d - 1), rs[|rs| - 1]);
    }
  }

  lemma DemandGrows(rs: seq<Reservation>, q: seq<Request>, w: int, d: nat)
    requires rs != [] && d > 0
    requires if Takes(rs, w, d) then DemandSum(rs[..|rs| - 1], q) >= Best(rs[..|rs| - 1], w, d - 1) && Count(q, rs[|rs| - 1].key) > 0
             else DemandSum(rs[..|rs| - 1], q) >= Best(rs[..|rs| - 1], w, d)
    ensures DemandSum(rs, q) >= Best(rs, w, d)
  {
  }

  /** When every picked intention waits, at least the best total is in demand. */
  lemma {:induction false} PickedDemand(rs: seq<Reservation>, q: seq<Request>, w: int, d: nat)
    requires SmallQueued(q, Pick(rs, w, d))
    ensures DemandSum(rs, q) >= Best(rs, w, d)
  {
    if rs != [] && d > 0 {
      PickedBefore(rs, q, w, d);
      PickedDemand(rs[..|rs| - 1], q, w, if Takes(rs, w, d) then d - 1 else d);
      DemandGrows(rs, q, w, d);
    }
  }

  lemma {:induction false} SmallIsBelowLargest(rs: seq<Reservation>, n: nat, w: int)
    requires n < |rs| && rs[n].amount < w
    ensures rs[n].amount <= LargestSmall(rs, w)
  {
    if n < |rs| - 1 { SmallIsBelowLargest(rs[..|rs| - 1], n, w); }
  }

  /** With one such waiter per picked reservation and nothing active, each waiter is refused. */
  lemma SmallQueueStuck(g: Gate, w: Pos, d: Pos)
    requires Valid(g) && g.active == 0 && !Roomy(g.reservations, g.limit, w, d) && w <= g.limit
    requires SmallOnly(g.waiters, Pick(g.reservations, w, d), w)
    requires SmallQueued(g.waiters, Pick(g.reservations, w, d))
    ensures Refused(g, g.waiters)
  {
    var rs, q := g.reservations, g.waiters;
    OverSubscribedIffSumAboveLimit(rs, g.limit);
    SplitWithinLimit(rs, g.limit);
    IdleCounters(g);
    PickedDemand(rs, q, w, d);
    forall r | r in q ensures !CanGrant(g, r.intention, r.weight) {
      var e :| e in Pick(rs, w, d) && e.key == r.intention;
      var n :| 0 <= n < |rs| && rs[n] == e;
      LookupOfEntry(rs, n);
      SmallIsBelowLargest(rs, n, w);
      IdleUnfilled(rs, g.activeBy, g.queuedBy, q, r.intention);
    }
  }

  /** Phase 4: the release batch leaves the gate idle and the whole queue refused. */
  lemma TimerStrands(g: Gate, w: Pos, d: Pos)
    requires Valid(g) && g.held == [] && g.active > 0 && g.waiters != []
    requires !Roomy(g.reservations, g.limit, w, d) && w <= g.limit
    requires SmallOnly(g.waiters, Pick(g.reservations, w, d), w)
    requires SmallQueued(g.waiters, Pick(g.reservations, w, d))
    ensures Stranded(FireTimer(g))
  {
    SettlePendingConserves(g);
    var h := SettlePending(g);
    SmallQueueStuck(h, w, d);
    DrainOfRefused(h, h.waiters, []);
  }

  lemma SomeoneQueues(q: seq<Request>, es: seq<Reservation>)
    requires Sum(es) > 0 && SmallQueued(q, es)
    ensures q != []
  {
    assert es[|es| - 1] in es;
  }

  /** A run that strands a waiter, for every configuration that is not roomy. */
  lemma StrandingRun(hardCap: int, softLimit: int, depth: Pos, rs: Record, w: Pos) returns (steps: seq<Step>)
    requires !Roomy(rs, Fresh(hardCap, softLimit, depth, rs).limit, w, depth)
    ensures FixedRun(steps, w) && Stranded(Run(Fresh(hardCap, softLimit, depth, rs), steps))
  {
    var g := Fresh(hardCap, softLimit, depth, rs);
    FreshIsValid(hardCap, softLimit, depth, rs);
    if w > g.limit {
      var s := AcquireStep("", w, false);
      steps := [s];
      RunOne(g, s, []);
      assert [s] + [] == [s];
    } else {
      var es := Pick(rs, w, depth);
      var fill := Fill(g, "", w);
      var g1 := Run(g, fill);
      var line := QueueUp(g1, es, w);
      var g2 := Run(g1, line);
      var free := ReleaseAll(g2, w);
      var g3 := Run(g2, free);
      SomeoneQueues(g2.waiters, es);
      TimerStrands(g3, w, depth);
      steps := fill + (line + (free + [TimerStep]));
      RunConcat(g, fill, line + (free + [TimerStep]));
      RunConcat(g1, line, free + [TimerStep]);
      RunLast(g2, free, TimerStep);
    }
  }

  /** Exactly when a gate never strands a waiter: for runs at a fixed configuration with
      requests of weight up to `w`, if and only if the configuration is roomy for `w` and the
      queue depth. */
  lemma NeverStrandsIffRoomy(hardCap: int, softLimit: int, depth: Pos, rs: Record, w: Pos)
    ensures Roomy(rs, Fresh(hardCap, softLimit, depth, rs).limit, w, depth) <==>
            forall steps :: FixedRun(steps, w) ==> !Stranded(Run(Fresh(hardCap, softLimit, depth, rs), steps))
  {
    var g := Fresh(hardCap, softLimit, depth, rs);
    if Roomy(rs, g.limit, w, depth) {
      forall steps | FixedRun(steps, w) ensures !Stranded(Run(g, steps)) {
        FixedRunsAreRoomy(g, steps, w, depth);
        NoStrandedWaiter(hardCap, softLimit, depth, rs, steps, w, depth);
      }
    } else {
      var steps := StrandingRun(hardCap, softLimit, depth, rs, w);
    }
  }

  lemma {:induction false} BestOfOne(rs: seq<Reservation>, w: int)
    ensures Best(rs, w, 1) == LargestSmall(rs, w)
  {
    if rs != [] { BestOfOne(rs[..|rs| - 1], w); }
  }

  /** With room for a single waiter any reservations will do: such a gate never strands a
      request that fits the limit. */
  lemma DepthOneNeverStrands(hardCap: int, softLimit: int, rs: Record, w: Pos, steps: seq<Step>)
    requires w <= Fresh(hardCap, softLimit, 1, rs).limit && FixedRun(steps, w)
    ensures !Stranded(Run(Fresh(hardCap, softLimit, 1, rs), steps))
  {
    BestOfOne(rs, w);
    NeverStrandsIffRoomy(hardCap, softLimit, 1, rs, w);
  }
}
