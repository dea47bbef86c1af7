/** A plain weighted counting semaphore, and the proof that the gate is one as long as a
    single intention makes requests: idle reservations cost nothing. */
module GatePlain {
  import opened Wrappers
  import opened Reservations
  import opened GateModel
  import opened GateConservation

  /** No reservations and no per-intention counters: a request fits or it does not. */
  datatype Plain = Plain(
    active: int, limit: int, hardCap: int, maxQueueDepth: int,
    waiters: seq<Request>, pending: seq<Request>, held: seq<Request>, granted: seq<Request>, arrivals: nat)
  {
    predicate Fits(w: int) { active + w <= limit }

    function Take(r: Request): Plain {
      this.(active := active + r.weight, held := held + [r], granted := granted + [r])
    }

    function Serve(todo: seq<Request>, kept: seq<Request>): Plain
      decreases |todo|
    {
      if todo == [] then this.(waiters := kept)
      else if Fits(todo[0].weight) then Take(todo[0]).Serve(todo[1..], kept)
      else Serve(todo[1..], kept + [todo[0]])
    }

    function WithLimit(n: int): Plain {
      if n == limit then this else this.(limit := n).Serve(waiters, [])
    }

    function Do(s: Step): Plain {
      match s
      case AcquireStep(i, w, p) =>
        if w <= 0 then this
        else
          var r := Request(arrivals, i, w, p);
          var next := this.(arrivals := arrivals + 1);
          if Fits(w) then next.Take(r)
          else if |waiters| >= maxQueueDepth then next
          else next.(waiters := waiters + [r])
      case ReleaseStep(id) =>
        var n := IndexOf(held, id);
        if n < 0 then this else this.(held := Without(held, n), pending := pending + [held[n]])
      case TimerStep =>
        if pending == [] then this
        else this.(active := active - Weight(pending), pending := []).Serve(waiters, [])
      case RemoveStep(id) =>
        var n := IndexOf(waiters, id);
        if n < 0 then this else this.(waiters := Without(waiters, n))
      case ResizeStep(n) => WithLimit(Max(SCALE, Min(n, hardCap)))
      case HardCapStep(n) =>
        var cap := Max(1, n) * SCALE;
        if cap < limit then this.(hardCap := cap).WithLimit(cap) else this.(hardCap := cap)
      case SoftLimitStep(n) => this
      case ReconfigureStep(d, rs) => if d.Some? then this.(maxQueueDepth := d.value) else this
    }

    function DoAll(steps: seq<Step>): Plain {
      if steps == [] then this else DoAll(steps[..|steps| - 1]).Do(steps[|steps| - 1])
    }
  }

  function Abs(g: Gate): Plain {
    Plain(g.active, g.limit, g.hardCap, g.maxQueueDepth, g.waiters, g.pending, g.held, g.granted, g.arrivals)
  }

  /** Every request of the list has intention `i`. */
  predicate Only(s: seq<Request>, i: Intention) {
    forall r :: r in s ==> r.intention == i
  }

  ghost predicate Alone(g: Gate, queue: seq<Request>, i: Intention) {
    Only(g.held, i) && Only(g.pending, i) && Only(queue, i)
  }

  lemma {:induction false} OnlyMeasures(s: seq<Request>, i: Intention, k: Intention)
    requires Only(s, i) && k != i
    ensures WeightOf(s, k) == 0 && Count(s, k) == 0
  {
    if s != [] {
      assert s[|s| - 1] in s;
      OnlyMeasures(s[..|s| - 1], i, k);
    }
  }

  lemma {:induction false} NothingUnfilled(eff: seq<Reservation>, a: map<Intention, int>, q: map<Intention, int>, i: Intention)
    requires forall k :: k != i ==> Get(a, k) == 0 && Get(q, k) == 0
    ensures Unfilled(eff, a, q, i) == 0
  {
    if eff != [] { NothingUnfilled(eff[..|eff| - 1], a, q, i); }
  }

  /** With no other intention in demand, all four clauses of the grant test collapse to the
      capacity test. */
  lemma AloneFits(g: Gate, queue: seq<Request>, i: Intention, w: int)
    requires Conserved(g) && Counted(g, queue) && Alone(g, queue, i)
    ensures CanGrant(g, i, w) <==> g.active + w <= g.limit
  {
    forall k | k != i ensures Get(g.activeBy, k) == 0 && Get(g.queuedBy, k) == 0 {
      OnlyMeasures(g.held, i, k);
      OnlyMeasures(g.pending, i, k);
      OnlyMeasures(queue, i, k);
    }
    NothingUnfilled(Effective(g.reservations, g.limit), g.activeBy, g.queuedBy, i);
  }

  lemma AloneAfterStep(g: Gate, todo: seq<Request>, kept: seq<Request>, i: Intention)
    requires todo != [] && Alone(g, kept + todo, i)
    ensures todo[0].intention == i
    ensures Alone(Grant(Uncount(g, i), todo[0]), kept + todo[1..], i)
  {
    assert todo[0] in kept + todo;
    assert forall r :: r in kept + todo[1..] ==> r in kept + todo;
  }

  lemma {:induction false} DrainRefinesServe(g: Gate, todo: seq<Request>, kept: seq<Request>, i: Intention)
    requires Conserved(g) && Counted(g, kept + todo) && Alone(g, kept + todo, i)
    ensures Abs(Drain(g, todo, kept)) == Abs(g).Serve(todo, kept)
    ensures Alone(Drain(g, todo, kept), Drain(g, todo, kept).waiters, i)
    decreases |todo|
  {
    if todo == [] {
      assert kept + todo == kept;
    } else {
      AloneAfterStep(g, todo, kept, i);
      AloneFits(g, kept + todo, i, todo[0].weight);
      if CanGrant(g, i, todo[0].weight) {
        var g' := Grant(Uncount(g, i), todo[0]);
        DrainStepKeeps(g, todo, kept);
        AloneAfterStep(g, todo, kept, i);
        assert Abs(g') == Abs(g).Take(todo[0]);
        DrainRefinesServe(g', todo[1..], kept, i);
      } else {
        assert kept + [todo[0]] + todo[1..] == kept + todo;
        DrainRefinesServe(g, todo[1..], kept + [todo[0]], i);
      }
    }
  }

  lemma DrainWaitersRefines(g: Gate, i: Intention)
    requires Valid(g) && Alone(g, g.waiters, i)
    ensures Abs(DrainWaiters(g)) == Abs(g).Serve(g.waiters, [])
    ensures Alone(DrainWaiters(g), DrainWaiters(g).waiters, i)
  {
    assert [] + g.waiters == g.waiters;
    if g.waiters != [] { DrainRefinesServe(g, g.waiters, [], i); }
  }

  lemma AcquireRefines(g: Gate, i: Intention, w: int, p: bool)
    requires Valid(g) && Alone(g, g.waiters, i)
    ensures Abs(Acquire(g, i, w, p).0) == Abs(g).Do(AcquireStep(i, w, p))
    ensures Alone(Acquire(g, i, w, p).0, Acquire(g, i, w, p).0.waiters, i)
  {
    AloneFits(g, g.waiters, i, w);
  }

  lemma TimerRefines(g: Gate, i: Intention)
    requires Valid(g) && Alone(g, g.waiters, i)
    ensures Abs(FireTimer(g)) == Abs(g).Do(TimerStep)
    ensures Alone(FireTimer(g), FireTimer(g).waiters, i)
  {
    SettlePendingConserves(g);
    DrainWaitersRefines(SettlePending(g), i);
  }

  lemma LimitsRefine(g: Gate, n: int, i: Intention)
    requires Valid(g) && Alone(g, g.waiters, i)
    ensures Abs(Resize(g, n)) == Abs(g).Do(ResizeStep(n)) && Alone(Resize(g, n), Resize(g, n).waiters, i)
    ensures Abs(SetHardCap(g, n)) == Abs(g).Do(HardCapStep(n)) && Alone(SetHardCap(g, n), SetHardCap(g, n).waiters, i)
  {
    var clamped: Limit := Max(SCALE, Min(n, g.hardCap));
    DrainWaitersRefines(g.(limit := clamped), i);
    var cap: Limit := Max(1, n) * SCALE;
    var g1 := g.(hardCap := cap, softLimit := Min(g.softLimit, cap));
    if g.limit > cap { DrainWaitersRefines(g1.(limit := cap), i); }
  }

  lemma ReleaseRefines(g: Gate, id: nat, i: Intention)
    requires Valid(g) && Alone(g, g.waiters, i)
    ensures Abs(Release(g, id)) == Abs(g).Do(ReleaseStep(id)) && Alone(Release(g, id), g.waiters, i)
  {
    var n := IndexOf(g.held, id);
    if n >= 0 {
      assert g.held[n] in g.held;
      assert forall r :: r in Without(g.held, n) ==> r in g.held;
    }
  }

  lemma RemoveRefines(g: Gate, id: nat, i: Intention)
    requires Valid(g) && Alone(g, g.waiters, i)
    ensures Abs(RemoveWaiter(g, id)) == Abs(g).Do(RemoveStep(id)) && Alone(RemoveWaiter(g, id), RemoveWaiter(g, id).waiters, i)
  {
    var n := IndexOf(g.waiters, id);
    if n >= 0 { assert forall r :: r in Without(g.waiters, n) ==> r in g.waiters; }
  }

  lemma StepRefines(g: Gate, s: Step, i: Intention)
    requires Valid(g) && Alone(g, g.waiters, i)
    requires s.AcquireStep? ==> s.intention == i
    ensures Abs(Apply(g, s)) == Abs(g).Do(s)
    ensures Alone(Apply(g, s), Apply(g, s).waiters, i)
  {
    match s
    case AcquireStep(_, w, p) => AcquireRefines(g, i, w, p);
    case ReleaseStep(id) => ReleaseRefines(g, id, i);
    case TimerStep => TimerRefines(g, i);
    case RemoveStep(id) => RemoveRefines(g, id, i);
    case ResizeStep(n) => LimitsRefine(g, n, i);
    case HardCapStep(n) => LimitsRefine(g, n, i);
    case SoftLimitStep(n) =>
    case ReconfigureStep(d, rs) =>
  }

  /** Idle reservations cost nothing: while only one intention makes requests, the gate and
      the plain semaphore go through the same states, whatever is released, timed out,
      resized or reconfigured in between. */
  lemma {:induction false} SingleIntentionIsPlainSemaphore(g: Gate, steps: seq<Step>, i: Intention)
    requires Valid(g) && Alone(g, g.waiters, i)
    requires forall s :: s in steps && s.AcquireStep? ==> s.intention == i
    ensures Abs(Run(g, steps)) == Abs(g).DoAll(steps)
    ensures Alone(Run(g, steps), Run(g, steps).waiters, i)
  {
    if steps != [] {
      SingleIntentionIsPlainSemaphore(g, steps[..|steps| - 1], i);
      ConservationOverRuns(g, steps[..|steps| - 1]);
      StepRefines(Run(g, steps[..|steps| - 1]), steps[|steps| - 1], i);
    }
  }
}
