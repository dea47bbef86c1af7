/** When a request is granted, said without the program's own sums: by what the other
    intentions that have requests in the gate would still need to fill their reservations. */
module GateDecision {
  import opened Wrappers
  import opened Reservations
  import opened GateModel
  import opened GateConservation
  import opened GateProgress

  /** Intention `k` has a permit not yet settled, or a waiter. */
  ghost predicate Present(g: Gate, k: Intention) {
    exists r :: r in g.held + g.pending + g.waiters && r.intention == k
  }

  lemma {:induction false} MeasuresTellPresence(s: seq<Request>, k: Intention)
    ensures Count(s, k) > 0 <==> exists r :: r in s && r.intention == k
    ensures WeightOf(s, k) > 0 <==> exists r :: r in s && r.intention == k
  {
    if s != [] {
      MeasuresTellPresence(s[..|s| - 1], k);
      assert s == s[..|s| - 1] + [s[|s| - 1]];
    }
  }

  lemma DemandIsPresence(g: Gate, k: Intention)
    requires Valid(g)
    ensures InDemand(g.activeBy, g.queuedBy, k) <==> Present(g, k)
  {
    MeasuresTellPresence(g.held, k);
    MeasuresTellPresence(g.pending, k);
    MeasuresTellPresence(g.waiters, k);
    assert Get(g.activeBy, k) == WeightOf(g.held, k) + WeightOf(g.pending, k);
    assert Get(g.queuedBy, k) == Count(g.waiters, k);
    assert forall r :: r in g.held + g.pending + g.waiters <==> r in g.held || r in g.pending || r in g.waiters;
  }

  /** How much of entry `e` the list must bring: all that is missing, if `e` belongs to another
      intention that is present, and nothing otherwise. */
  ghost predicate Missing(g: Gate, i: Intention, e: Reservation, weight: int) {
    var inUse := WeightOf(g.held, e.key) + WeightOf(g.pending, e.key);
    if e.key != i && Present(g, e.key) && inUse < e.amount then inUse + weight == e.amount else weight == 0
  }

  /** The list brings every other present intention to exactly its reservation, and holds
      nothing else. */
  ghost predicate TopsUp(g: Gate, i: Intention, reqs: seq<Request>) {
    && (forall r :: r in reqs ==> exists e :: e in g.reservations && e.key == r.intention)
    && (forall e :: e in g.reservations ==> Missing(g, i, e, WeightOf(reqs, e.key)))
  }

  /** The weight of the list, entry by entry. */
  ghost function Brought(rs: seq<Reservation>, reqs: seq<Request>): nat {
    if rs == [] then 0 else Brought(rs[..|rs| - 1], reqs) + WeightOf(reqs, rs[|rs| - 1].key)
  }

  lemma {:induction false} BroughtByNone(rs: seq<Reservation>)
    ensures Brought(rs, []) == 0
  {
    if rs != [] { BroughtByNone(rs[..|rs| - 1]); }
  }

  lemma {:induction false} BroughtByOneMore(rs: seq<Reservation>, reqs: seq<Request>)
    requires DistinctKeys(rs) && reqs != []
    ensures var r := reqs[|reqs| - 1];
            Brought(rs, reqs) == Brought(rs, reqs[..|reqs| - 1]) +
                                 (if exists e :: e in rs && e.key == r.intention then r.weight else 0)
  {
    if rs != [] {
      var rest, e := rs[..|rs| - 1], rs[|rs| - 1];
      BroughtByOneMore(rest, reqs);
      assert e in rs && forall x :: x in rest ==> x in rs;
      assert forall x :: x in rs ==> x == e || x in rest;
      if e.key == reqs[|reqs| - 1].intention {
        assert forall x :: x in rest ==> x.key != e.key;
      }
    }
  }

  lemma {:induction false} BroughtIsWeight(rs: seq<Reservation>, reqs: seq<Request>)
    requires DistinctKeys(rs)
    requires forall r :: r in reqs ==> exists e :: e in rs && e.key == r.intention
    ensures Brought(rs, reqs) == Weight(reqs)
  {
    if reqs == [] {
      BroughtByNone(rs);
    } else {
      assert reqs[|reqs| - 1] in reqs;
      BroughtIsWeight(rs, reqs[..|reqs| - 1]);
      BroughtByOneMore(rs, reqs);
    }
  }

  lemma {:induction false} BroughtIsUnfilled(g: Gate, rs: seq<Reservation>, i: Intention, reqs: seq<Request>)
    requires Valid(g)
    requires forall e :: e in rs ==> Missing(g, i, e, WeightOf(reqs, e.key))
    ensures Unfilled(rs, g.activeBy, g.queuedBy, i) == Brought(rs, reqs)
  {
    if rs != [] {
      var e := rs[|rs| - 1];
      assert e in rs;
      BroughtIsUnfilled(g, rs[..|rs| - 1], i, reqs);
      DemandIsPresence(g, e.key);
      assert Get(g.activeBy, e.key) == WeightOf(g.held, e.key) + WeightOf(g.pending, e.key);
    }
  }

  /** Exactly when a request is granted: when it fits the limit, and reservations are
      over-subscribed, or its own reservation covers it, or it still fits after every other
      present intention has been brought to its reservation. */
  lemma GrantIff(g: Gate, i: Intention, w: int, reqs: seq<Request>)
    requires Valid(g) && TopsUp(g, i, reqs)
    ensures CanGrant(g, i, w) <==>
            && g.active + w <= g.limit
            && ( Sum(g.reservations) > g.limit
                 || WeightOf(g.held, i) + WeightOf(g.pending, i) + w <= Lookup(g.reservations, i)
                 || g.active + w + Weight(reqs) <= g.limit)
  {
    var rs := g.reservations;
    OverSubscribedIffSumAboveLimit(rs, g.limit);
    SplitWithinLimit(rs, g.limit);
    BroughtIsWeight(rs, reqs);
    BroughtIsUnfilled(g, rs, i, reqs);
    assert Get(g.activeBy, i) == WeightOf(g.held, i) + WeightOf(g.pending, i);
  }

  /** A borrower must be served: when every other present intention has filled its reservation,
      over-filled ones included, a request is granted exactly when it fits. */
  lemma NothingMissingGrantsWhatFits(g: Gate, i: Intention, w: int)
    requires Valid(g)
    requires forall e :: e in g.reservations && e.key != i && Present(g, e.key) ==>
               WeightOf(g.held, e.key) + WeightOf(g.pending, e.key) >= e.amount
    ensures CanGrant(g, i, w) <==> g.active + w <= g.limit
  {
    GrantIff(g, i, w, []);
  }

  /** Such a list always exists, so the condition is never empty. */
  lemma {:induction false} SomeTopUp(g: Gate, i: Intention, rs: seq<Reservation>) returns (reqs: seq<Request>)
    requires DistinctKeys(rs)
    ensures forall r :: r in reqs ==> exists e :: e in rs && e.key == r.intention
    ensures forall e :: e in rs ==> Missing(g, i, e, WeightOf(reqs, e.key))
  {
    if rs == [] {
      reqs := [];
    } else {
      var init, e := rs[..|rs| - 1], rs[|rs| - 1];
      reqs := SomeTopUp(g, i, init);
      NoneOfOthers(reqs, e.key);
      var inUse := WeightOf(g.held, e.key) + WeightOf(g.pending, e.key);
      assert forall x :: x in rs ==> x == e || (x in init && x.key != e.key);
      if e.key != i && Present(g, e.key) && inUse < e.amount {
        var r := Request(0, e.key, e.amount - inUse, false);
        assert e in rs && (reqs + [r])[..|reqs|] == reqs;
        forall x | x in rs ensures Missing(g, i, x, WeightOf(reqs + [r], x.key)) {
        }
        reqs := reqs + [r];
      }
    }
  }

  lemma {:induction false} NoneOfOthers(reqs: seq<Request>, k: Intention)
    ensures (forall r :: r in reqs ==> r.intention != k) ==> WeightOf(reqs, k) == 0
  {
    if reqs != [] {
      NoneOfOthers(reqs[..|reqs| - 1], k);
      assert reqs[|reqs| - 1] in reqs;
    }
  }

  lemma TopUpExists(g: Gate, i: Intention) returns (reqs: seq<Request>)
    ensures TopsUp(g, i, reqs)
  {
    reqs := SomeTopUp(g, i, g.reservations);
  }

  // ------------------------------------------------------------ answers and settings

  /** What an acquire answers is what it did: granted, queued, or neither; it refuses for a full
      queue only what can be neither granted nor queued. */
  lemma AnswersAreTrue(g: Gate, i: Intention, w: int, p: bool)
    ensures var (h, answer) := Acquire(g, i, w, p);
            && (answer == InvalidWeight <==> w <= 0)
            && (answer == InvalidWeight ==> h == g)
            && (answer == Granted <==> w > 0 && h.granted == g.granted + [Request(g.arrivals, i, w, p)] && h.waiters == g.waiters)
            && (answer == Queued <==> w > 0 && h.waiters == g.waiters + [Request(g.arrivals, i, w, p)] && h.granted == g.granted)
            && (answer == Granted <==> w > 0 && CanGrant(g, i, w))
            && (answer == QueueFull <==> w > 0 && !CanGrant(g, i, w) && |g.waiters| >= g.maxQueueDepth)
  {
    if w > 0 {
      var r := Request(g.arrivals, i, w, p);
      assert |g.granted + [r]| != |g.granted| && |g.waiters + [r]| != |g.waiters|;
    }
  }

  /** New reservations take effect at once: decisions are those of a gate that always had them. */
  lemma ReconfigureTakesEffect(g: Gate, depth: Option<int>, rs: Record, i: Intention, w: int)
    requires Valid(g)
    ensures CanGrant(Reconfigure(g, depth, Some(rs)), i, w) == CanGrant(g.(reservations := rs), i, w)
    ensures Reconfigure(g, depth, Some(rs)).maxQueueDepth == depth.GetOr(g.maxQueueDepth)
  {
    var h := Reconfigure(g, depth, Some(rs));
    ReconfigureConserves(g, depth, Some(rs));
    forall k ensures Get(h.activeBy, k) == Get(g.activeBy, k) && Get(h.queuedBy, k) == Get(g.queuedBy, k) {
      WithKeysReadsSame(g.activeBy, rs, k);
      WithKeysReadsSame(g.queuedBy, rs, k);
    }
    SameReadsSameUnfilled(Effective(rs, g.limit), g.activeBy, g.queuedBy, h.activeBy, h.queuedBy, i);
  }

  lemma {:induction false} SameReadsSameUnfilled(
      rs: seq<Reservation>, a: map<Intention, int>, q: map<Intention, int>,
      a': map<Intention, int>, q': map<Intention, int>, i: Intention)
    requires forall k :: Get(a', k) == Get(a, k) && Get(q', k) == Get(q, k)
    ensures Unfilled(rs, a', q', i) == Unfilled(rs, a, q, i)
  {
    if rs != [] {
      SameReadsSameUnfilled(rs[..|rs| - 1], a, q, a', q', i);
      assert Get(a', rs[|rs| - 1].key) == Get(a, rs[|rs| - 1].key);
      assert Get(q', rs[|rs| - 1].key) == Get(q, rs[|rs| - 1].key);
    }
  }

  /** The limits a gate starts with and is given, in whole permits. */
  lemma LimitsAsGiven(g: Gate, hardCap: nat, softLimit: nat, depth: int, rs: Record)
    requires hardCap > 0 && softLimit > 0
    ensures var h := Fresh(hardCap, softLimit, depth, rs);
            h.hardCap == hardCap * SCALE && h.softLimit == softLimit * SCALE && h.limit == Min(hardCap, softLimit) * SCALE
    ensures SetSoftLimit(g, softLimit).softLimit == softLimit * SCALE
    ensures SetHardCap(g, hardCap).hardCap == hardCap * SCALE
    ensures hardCap * SCALE != g.hardCap ==> SetHardCap(g, hardCap).softLimit == Min(g.softLimit, hardCap * SCALE)
    ensures hardCap * SCALE != g.hardCap ==> SetHardCap(g, hardCap).limit == Min(g.limit, hardCap * SCALE)
  {
  }
}
