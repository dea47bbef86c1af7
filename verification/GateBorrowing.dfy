/** What borrowing may and may not cost the intentions that reserved, and two schedules that
    show where the gate's guarantees end. */
module GateBorrowing {
  import opened Wrappers
  import opened Reservations
  import opened GateModel
  import opened GateConservation
  import opened GateScheduling
  import opened GateProgress
  import opened GateStranding

  /** The unfilled reservations of every other intention in demand still fit next to what is
      active. A grant made through `capacity` to `i` establishes this. */
  ghost predicate Backed(g: Gate, i: Intention) {
    Sum(g.reservations) <= g.limit &&
    g.active + Unfilled(g.reservations, g.activeBy, g.queuedBy, i) <= g.limit
  }

  lemma {:induction false} UnfilledCovers(rs: seq<Reservation>, a: map<Intention, int>, q: map<Intention, int>, i: Intention, k: Intention)
    requires k != i && InDemand(a, q, k)
    ensures Lookup(rs, k) > 0 ==> Unfilled(rs, a, q, i) >= Lookup(rs, k) - Get(a, k)
  {
    if rs != [] && rs[|rs| - 1].key != k { UnfilledCovers(rs[..|rs| - 1], a, q, i, k); }
  }

  /** A grant inside one's own reservation uses up exactly as much of the reserved room. */
  lemma {:induction false} UnfilledDropsExactly(rs: seq<Reservation>, a: map<Intention, int>, q: map<Intention, int>, i: Intention, k: Intention, w: Pos)
    requires DistinctKeys(rs) && k != i && InDemand(a, q, k) && Get(a, k) >= 0 && Get(q, k) >= 0
    ensures var a' := a[k := Get(a, k) + w];
            && ((forall e :: e in rs ==> e.key != k) ==> Unfilled(rs, a', q, i) == Unfilled(rs, a, q, i))
            && (Get(a, k) + w <= Lookup(rs, k) ==> Unfilled(rs, a', q, i) == Unfilled(rs, a, q, i) - w)
  {
    if rs != [] {
      var init, e := rs[..|rs| - 1], rs[|rs| - 1];
      UnfilledDropsExactly(init, a, q, i, k, w);
      if e.key == k {
        assert forall x :: x in init ==> x.key != k;
        assert e in rs;
      } else {
        assert Need(e, a[k := Get(a, k) + w], q, i) == Need(e, a, q, i);
      }
    }
  }

  lemma GrantWithinReservation(g: Gate, i: Intention, r: Request)
    requires Valid(g) && Backed(g, i) && r.intention != i
    requires InDemand(g.activeBy, g.queuedBy, r.intention)
    requires Get(g.activeBy, r.intention) + r.weight <= Lookup(g.reservations, r.intention)
    ensures CanGrant(g, r.intention, r.weight)
    ensures Valid(Grant(g, r)) && Backed(Grant(g, r), i)
  {
    var k := r.intention;
    SplitWithinLimit(g.reservations, g.limit);
    assert Get(g.activeBy, k) == WeightOf(g.held, k) + WeightOf(g.pending, k);
    assert Get(g.queuedBy, k) == Count(g.waiters, k);
    UnfilledCovers(g.reservations, g.activeBy, g.queuedBy, i, k);
    UnfilledDropsExactly(g.reservations, g.activeBy, g.queuedBy, i, k, r.weight);
    GrantConserves(g, r);
  }

  /** The requests are granted one after another, none of them waiting. */
  ghost predicate AllGranted(g: Gate, reqs: seq<Request>)
    decreases |reqs|
  {
    reqs == [] || (CanGrant(g, reqs[0].intention, reqs[0].weight) && AllGranted(Grant(g, reqs[0]), reqs[1..]))
  }

  /** The requests belong to other intentions in demand and together stay inside what those
      have reserved. */
  ghost predicate WithinReservations(g: Gate, i: Intention, reqs: seq<Request>) {
    forall r :: r in reqs ==>
      && r.intention != i && InDemand(g.activeBy, g.queuedBy, r.intention)
      && Get(g.activeBy, r.intention) + WeightOf(reqs, r.intention) <= Lookup(g.reservations, r.intention)
  }

  lemma WeightOfFirst(reqs: seq<Request>, k: Intention)
    requires reqs != []
    ensures WeightOf(reqs, k) == (if reqs[0].intention == k then reqs[0].weight else 0) + WeightOf(reqs[1..], k)
  {
    assert reqs == [reqs[0]] + reqs[1..];
    MeasureConcat([reqs[0]], reqs[1..], k);
    MeasureOne(reqs[0], k);
  }

  lemma RestWithinReservations(g: Gate, i: Intention, reqs: seq<Request>)
    requires Valid(g) && reqs != [] && WithinReservations(g, i, reqs)
    ensures WithinReservations(Grant(g, reqs[0]), i, reqs[1..])
  {
    var g' := Grant(g, reqs[0]);
    forall x | x in reqs[1..]
      ensures x.intention != i && InDemand(g'.activeBy, g'.queuedBy, x.intention)
      ensures Get(g'.activeBy, x.intention) + WeightOf(reqs[1..], x.intention) <= Lookup(g.reservations, x.intention)
    {
      var k := x.intention;
      assert x in reqs;
      WeightOfFirst(reqs, k);
      assert Get(g.activeBy, k) == WeightOf(g.held, k) + WeightOf(g.pending, k);
      assert Get(g.queuedBy, k) == Count(g.waiters, k);
    }
  }

  lemma {:induction false} BackedServesAll(g: Gate, i: Intention, reqs: seq<Request>)
    requires Valid(g) && Backed(g, i) && WithinReservations(g, i, reqs)
    ensures AllGranted(g, reqs)
    decreases |reqs|
  {
    if reqs != [] {
      var r := reqs[0];
      assert r in reqs;
      WeightOfFirst(reqs, r.intention);
      GrantWithinReservation(g, i, r);
      RestWithinReservations(g, i, reqs);
      BackedServesAll(Grant(g, r), i, reqs[1..]);
    }
  }

  /** Borrowing respects demand: right after a grant to `b` made through `capacity`, any
      requests of other intentions that were in demand and stay inside their reservations are
      granted at once, however many they are and in whatever order they come. */
  lemma BorrowingRespectsDemand(g: Gate, b: Request, reqs: seq<Request>)
    requires Valid(g) && Sum(g.reservations) <= g.limit
    requires g.active + b.weight <= Capacity(g, b.intention)
    requires WithinReservations(g, b.intention, reqs)
    ensures CanGrant(g, b.intention, b.weight) && AllGranted(Grant(g, b), reqs)
  {
    var g' := Grant(g, b);
    SplitWithinLimit(g.reservations, g.limit);
    GrantConserves(g, b);
    OwnGrantKeepsUnfilled(g.reservations, g.activeBy, g.queuedBy, b.intention, Get(g.activeBy, b.intention) + b.weight);
    assert WithinReservations(g', b.intention, reqs);
    BackedServesAll(g', b.intention, reqs);
  }

  lemma {:induction false} OwnGrantKeepsUnfilled(rs: seq<Reservation>, a: map<Intention, int>, q: map<Intention, int>, i: Intention, v: int)
    ensures Unfilled(rs, a[i := v], q, i) == Unfilled(rs, a, q, i)
  {
    if rs != [] { OwnGrantKeepsUnfilled(rs[..|rs| - 1], a, q, i, v); }
  }

  // ------------------------------------------------------------ where arrival order ends

  function TwoLanes(): Record {
    [Reservation("main", 1000), Reservation("vision", 1000)]
  }

  /** A gate with limit 2 and these reservations; nothing has been released yet. */
  function Lanes(active: int, main: int, queuedMain: int, queuedVision: int, waiters: seq<Request>, granted: seq<Request>, arrivals: nat): Gate {
    Gate(active, 2000, 2000, 2000, 8, TwoLanes(), map["main" := main, "vision" := 0],
         map["main" := queuedMain, "vision" := queuedVision], waiters, [], false, granted, granted, arrivals)
  }

  lemma TwoLanesAmounts()
    ensures Sum(TwoLanes()) == 2000 && Lookup(TwoLanes(), "main") == 1000
  {
    var one := [Reservation("main", 1000)];
    assert one[..0] == [] && TwoLanes()[..|TwoLanes()| - 1] == one;
    assert Sum(one) == 1000 && Lookup(one, "main") == 1000;
  }

  lemma TwoLanesUnfilled(a: map<Intention, int>, q: map<Intention, int>)
    ensures Unfilled(TwoLanes(), a, q, "main") == Need(Reservation("vision", 1000), a, q, "main")
  {
    var one := [Reservation("main", 1000)];
    assert one[..0] == [] && TwoLanes()[..|TwoLanes()| - 1] == one;
    assert Unfilled(one, a, q, "main") == 0;
  }

  lemma LanesDecide(g: Gate, active: int, main: int, qm: int, qv: nat, ws: seq<Request>, gs: seq<Request>, n: nat, w: Pos)
    requires g == Lanes(active, main, qm, qv, ws, gs, n)
    requires main >= 1000 || active == 0
    ensures CanGrant(g, "main", w) <==> active + w <= 2000 && (main + w <= 1000 || active + w <= (if qv == 0 then 2000 else 1000))
    ensures active + w > 2000 ==> !CanGrant(g, "vision", w)
  {
    TwoLanesAmounts();
    SplitWithinLimit(TwoLanes(), 2000);
    OverSubscribedIffSumAboveLimit(TwoLanes(), 2000);
    TwoLanesUnfilled(g.activeBy, g.queuedBy);
  }

  const First := Request(0, "main", 1000, false)
  const Second := Request(1, "main", 500, false)
  const Vision := Request(2, "vision", 1000, false)
  const Early := Request(3, "main", 500, false)
  const Late := Request(4, "main", 500, false)

  lemma FirstArrives()
    ensures Apply(Lanes(0, 0, 0, 0, [], [], 0), AcquireStep("main", 1000, false)) == Lanes(1000, 1000, 0, 0, [], [First], 1)
  {
    LanesDecide(Lanes(0, 0, 0, 0, [], [], 0), 0, 0, 0, 0, [], [], 0, 1000);
  }

  lemma SecondArrives()
    ensures Apply(Lanes(1000, 1000, 0, 0, [], [First], 1), AcquireStep("main", 500, false)) == Lanes(1500, 1500, 0, 0, [], [First, Second], 2)
  {
    LanesDecide(Lanes(1000, 1000, 0, 0, [], [First], 1), 1000, 1000, 0, 0, [], [First], 1, 500);
  }

  lemma VisionArrives()
    ensures Apply(Lanes(1500, 1500, 0, 0, [], [First, Second], 2), AcquireStep("vision", 1000, false)) == Lanes(1500, 1500, 0, 1, [Vision], [First, Second], 3)
  {
    LanesDecide(Lanes(1500, 1500, 0, 0, [], [First, Second], 2), 1500, 1500, 0, 0, [], [First, Second], 2, 1000);
  }

  lemma Queueing()
    ensures Apply(Lanes(1500, 1500, 0, 1, [Vision], [First, Second], 3), AcquireStep("main", 500, false)) == Lanes(1500, 1500, 1, 1, [Vision, Early], [First, Second], 4)
    ensures Apply(Lanes(1500, 1500, 1, 1, [Vision, Early], [First, Second], 4), RemoveStep(2)) == Lanes(1500, 1500, 1, 0, [Early], [First, Second], 4)
  {
    LanesDecide(Lanes(1500, 1500, 0, 1, [Vision], [First, Second], 3), 1500, 1500, 0, 1, [Vision], [First, Second], 3, 500);
    assert IndexOf([Vision, Early], 2) == 0;
    assert Without([Vision, Early], 0) == [Early];
  }

  lemma Overtaking()
    ensures Apply(Lanes(1500, 1500, 1, 0, [Early], [First, Second], 4), AcquireStep("main", 500, false)) == Lanes(2000, 2000, 1, 0, [Early], [First, Second, Late], 5)
  {
    LanesDecide(Lanes(1500, 1500, 1, 0, [Early], [First, Second], 4), 1500, 1500, 1, 0, [Early], [First, Second], 4, 500);
  }

  lemma RunThree(g: Gate, s1: Step, s2: Step, s3: Step)
    ensures Run(g, [s1, s2, s3]) == Apply(Apply(Apply(g, s1), s2), s3)
  {
    RunOne(g, s1, [s2, s3]);
    RunOne(Apply(g, s1), s2, [s3]);
    RunOne(Apply(Apply(g, s1), s2), s3, []);
    assert [s1] + [s2, s3] == [s1, s2, s3] && [s2] + [s3] == [s2, s3] && [s3] + [] == [s3];
  }

  lemma FreshLanes()
    ensures Fresh(2, 2, 8, TwoLanes()) == Lanes(0, 0, 0, 0, [], [], 0)
  {
    var rs := TwoLanes();
    assert rs[..1] == [Reservation("main", 1000)] && rs[..1][..0] == [];
    assert WithKeys(map[], rs[..1]) == map["main" := 0];
  }

  /** A timeout removes a waiter without draining, so a newcomer can overtake an equal
      request that the timeout made grantable: here request 4 is granted while request 3,
      same intention and weight, still waits. */
  lemma TimeoutLetsNewcomerOvertake()
    ensures var main := AcquireStep("main", 500, false);
            var g := Run(Fresh(2, 2, 8, TwoLanes()),
                         [AcquireStep("main", 1000, false), main, AcquireStep("vision", 1000, false)] + [main, RemoveStep(2), main]);
            Late in g.granted && Early in g.waiters && !Fifo(g, g.waiters)
  {
    var main := AcquireStep("main", 500, false);
    var a, b := [AcquireStep("main", 1000, false), main, AcquireStep("vision", 1000, false)], [main, RemoveStep(2), main];
    FreshLanes();
    FirstArrives();
    SecondArrives();
    VisionArrives();
    Queueing();
    Overtaking();
    RunConcat(Fresh(2, 2, 8, TwoLanes()), a, b);
    RunThree(Lanes(0, 0, 0, 0, [], [], 0), AcquireStep("main", 1000, false), main, AcquireStep("vision", 1000, false));
    RunThree(Lanes(1500, 1500, 0, 1, [Vision], [First, Second], 3), main, RemoveStep(2), main);
    var g := Lanes(2000, 2000, 1, 0, [Early], [First, Second, Late], 5);
    assert g == Run(Fresh(2, 2, 8, TwoLanes()), a + b);
    assert g.granted[2] == Late && g.waiters[0] == Early && SameClass(Late, Early);
  }

  /** Reservations of less than one request each strand default-weight waiters, as
      NeverStrandsIffRoomy predicts: limit 1, two reservations of 0.4, room for two waiters. */
  lemma FractionalReservationsAreNotRoomy()
    ensures !Roomy([Reservation("a", 400), Reservation("b", 400)], 1000, 1000, 2)
    ensures Roomy([Reservation("a", 400), Reservation("b", 400)], 1000, 1000, 1)
    ensures Roomy([Reservation("a", 400), Reservation("b", 400)], 1000, 600, 2)
  {
    var rs, one := [Reservation("a", 400), Reservation("b", 400)], [Reservation("a", 400)];
    assert one[..0] == [] && rs[..|rs| - 1] == one;
    assert Sum(one) == 400 && LargestSmall(one, 1000) == 400 && LargestSmall(one, 600) == 400;
    assert Best(one, 1000, 1) == 400 && Best(one, 1000, 2) == 400 && Best(one, 600, 1) == 400 && Best(one, 600, 2) == 400;
    assert Best(rs, 1000, 2) == 800 && Best(rs, 1000, 1) == 400 && Best(rs, 600, 2) == 800;
  }
}
