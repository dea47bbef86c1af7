/** The public gate: the circuit breaker in front of the semaphore. */
module ConcurrencyGates {
  import opened Wrappers
  import opened Reservations
  import GateModel
  import B = CircuitBreaking
  import opened SemaphoreObject
  import C = GateConservation
  import P = GateProgress
  import D = GateDecision

  datatype Admission = Granted | Queued | InvalidWeight | CircuitOpen | QueueFull

  /** An acquire on both parts: the weight is checked first, then the breaker, and only what
      the breaker lets through reaches the semaphore, marked as the probe if it is one. */
  function Admit(g: GateModel.Gate, b: B.Breaker, i: Intention, w: int, now: int): (GateModel.Gate, B.Breaker, Admission) {
    if w <= 0 then (g, b, InvalidWeight)
    else
      var (b', seen) := B.MaybeHalfOpen(b, now);
      if seen == B.Open then (g, b', CircuitOpen)
      else
        var (g', outcome) := GateModel.Acquire(g, i, w, seen == B.HalfOpen);
        (g', b', match outcome
                 case Granted => Granted
                 case Queued => Queued
                 case InvalidWeight => InvalidWeight
                 case QueueFull => QueueFull)
  }

  /** A waiter leaves the queue by timeout or abort; a probe that leaves reopens the breaker. */
  function Leave(g: GateModel.Gate, b: B.Breaker, id: nat, now: int): (GateModel.Gate, B.Breaker) {
    var n := GateModel.IndexOf(g.waiters, id);
    (GateModel.RemoveWaiter(g, id), if n >= 0 && g.waiters[n].wasProbe then B.ResetProbe(b, now) else b)
  }

  class ConcurrencyGate {
    const semaphore: Semaphore
    const breaker: B.CircuitBreaker

    constructor (hardCap: real, softLimit: real, releaseCooldownMs: int, maxQueueDepth: int, queueTimeoutMs: int, intentions: Record,
                 threshold: int, windowMs: int, cooldownMs: int)
      ensures fresh(semaphore) && fresh(breaker)
      ensures semaphore.State() == GateModel.Fresh(hardCap.Floor, softLimit.Floor, maxQueueDepth, intentions)
      ensures breaker.State() == B.Fresh(threshold, windowMs, cooldownMs)
    {
      semaphore := new Semaphore(hardCap, softLimit, releaseCooldownMs, maxQueueDepth, queueTimeoutMs, intentions);
      breaker := new B.CircuitBreaker(threshold, windowMs, cooldownMs);
    }

    method Acquire(i: Intention, weight: real, now: int) returns (result: Admission)
      modifies semaphore, breaker
      ensures (semaphore.State(), breaker.State(), result) ==
              Admit(old(semaphore.State()), old(breaker.State()), i, Scaled(weight), now)
    {
      if Scaled(weight) <= 0 { return InvalidWeight; }
      var seen := breaker.Enter(now);
      if seen == B.Open { return CircuitOpen; }
      var outcome := semaphore.Acquire(i, weight, seen == B.HalfOpen);
      match outcome {
        case Granted => return Granted;
        case Queued => return Queued;
        case InvalidWeight => return InvalidWeight;
        case QueueFull => return QueueFull;
      }
    }

    method WaiterLeaves(id: nat, now: int)
      modifies semaphore, breaker
      ensures (semaphore.State(), breaker.State()) == Leave(old(semaphore.State()), old(breaker.State()), id, now)
    {
      var n := GateModel.IndexOf(semaphore.waiters, id);
      var probe := n >= 0 && semaphore.waiters[n].wasProbe;
      var removed := semaphore.RemoveWaiter(id);
      if removed && probe { breaker.ProbeLost(now); }
    }
  }

  // ------------------------------------------------------------ runs of the whole gate

  /** A semaphore step that is no arrival and no departure: those go through the breaker. */
  type Chore = s: GateModel.Step | !s.AcquireStep? && !s.RemoveStep? witness GateModel.TimerStep

  /** A breaker action that does not come from a request entering or leaving the queue. */
  type Report = a: B.Action | !a.Acquire? && !a.LoseProbe? witness B.Success

  /** Everything that happens to the gate, with its time. */
  datatype Event =
    | Arrive(intention: Intention, weight: int, now: int)
    | Depart(id: nat, now: int)
    | OnSemaphore(step: Chore, now: int)
    | OnBreaker(action: Report, now: int)

  datatype Both = Both(gate: GateModel.Gate, breaker: B.Breaker)

  function Do(s: Both, e: Event): Both {
    match e
    case Arrive(i, w, now) => var r := Admit(s.gate, s.breaker, i, w, now); Both(r.0, r.1)
    case Depart(id, now) => var r := Leave(s.gate, s.breaker, id, now); Both(r.0, r.1)
    case OnSemaphore(step, _) => s.(gate := GateModel.Apply(s.gate, step))
    case OnBreaker(action, now) => s.(breaker := B.Apply(s.breaker, B.Event(now, action)))
  }

  function DoAll(s: Both, es: seq<Event>): Both {
    if es == [] then s else Do(DoAll(s, es[..|es| - 1]), es[|es| - 1])
  }

  /** The semaphore step an event amounts to: an arrival that the breaker stops is none. */
  function SemaphoreStep(s: Both, e: Event): seq<GateModel.Step> {
    match e
    case Arrive(i, w, now) =>
      var seen := B.MaybeHalfOpen(s.breaker, now).1;
      if w <= 0 || seen == B.Open then [] else [GateModel.AcquireStep(i, w, seen == B.HalfOpen)]
    case Depart(id, _) => [GateModel.RemoveStep(id)]
    case OnSemaphore(step, _) => [step]
    case OnBreaker(_, _) => []
  }

  function BreakerEvent(s: Both, e: Event): seq<B.Event> {
    match e
    case Arrive(_, w, now) => if w <= 0 then [] else [B.Event(now, B.Acquire)]
    case Depart(id, now) =>
      var n := GateModel.IndexOf(s.gate.waiters, id);
      if n >= 0 && s.gate.waiters[n].wasProbe then [B.Event(now, B.LoseProbe)] else []
    case OnSemaphore(_, _) => []
    case OnBreaker(action, now) => [B.Event(now, action)]
  }

  function SemaphoreSteps(s: Both, es: seq<Event>): seq<GateModel.Step> {
    if es == [] then []
    else SemaphoreSteps(s, es[..|es| - 1]) + SemaphoreStep(DoAll(s, es[..|es| - 1]), es[|es| - 1])
  }

  function BreakerEvents(s: Both, es: seq<Event>): seq<B.Event> {
    if es == [] then []
    else BreakerEvents(s, es[..|es| - 1]) + BreakerEvent(DoAll(s, es[..|es| - 1]), es[|es| - 1])
  }

  lemma SemaphoreAppend(g: GateModel.Gate, steps: seq<GateModel.Step>, more: seq<GateModel.Step>)
    requires |more| <= 1
    ensures GateModel.Run(g, steps + more) ==
            if more == [] then GateModel.Run(g, steps) else GateModel.Apply(GateModel.Run(g, steps), more[0])
  {
    if more == [] { assert steps + more == steps; } else { assert (steps + more)[..|steps|] == steps; }
  }

  lemma BreakerAppend(b: B.Breaker, events: seq<B.Event>, more: seq<B.Event>)
    requires |more| <= 1
    ensures B.Run(b, events + more) == if more == [] then B.Run(b, events) else B.Apply(B.Run(b, events), more[0])
  {
    if more == [] { assert events + more == events; } else { assert (events + more)[..|events|] == events; }
  }

  lemma EventSplits(s: Both, e: Event)
    ensures Do(s, e).gate == (if SemaphoreStep(s, e) == [] then s.gate else GateModel.Apply(s.gate, SemaphoreStep(s, e)[0]))
    ensures Do(s, e).breaker == (if BreakerEvent(s, e) == [] then s.breaker else B.Apply(s.breaker, BreakerEvent(s, e)[0]))
  {
  }

  lemma EventOnSemaphore(g: GateModel.Gate, steps: seq<GateModel.Step>, mid: Both, e: Event)
    requires mid.gate == GateModel.Run(g, steps)
    ensures Do(mid, e).gate == GateModel.Run(g, steps + SemaphoreStep(mid, e))
  {
    EventSplits(mid, e);
    SemaphoreAppend(g, steps, SemaphoreStep(mid, e));
  }

  lemma EventOnBreaker(b: B.Breaker, events: seq<B.Event>, mid: Both, e: Event)
    requires mid.breaker == B.Run(b, events)
    ensures Do(mid, e).breaker == B.Run(b, events + BreakerEvent(mid, e))
  {
    EventSplits(mid, e);
    BreakerAppend(b, events, BreakerEvent(mid, e));
  }

  lemma {:induction false} SemaphoreSide(s: Both, es: seq<Event>)
    ensures DoAll(s, es).gate == GateModel.Run(s.gate, SemaphoreSteps(s, es))
  {
    if es != [] {
      var init := es[..|es| - 1];
      SemaphoreSide(s, init);
      EventOnSemaphore(s.gate, SemaphoreSteps(s, init), DoAll(s, init), es[|es| - 1]);
    }
  }

  lemma {:induction false} BreakerSide(s: Both, es: seq<Event>)
    ensures DoAll(s, es).breaker == B.Run(s.breaker, BreakerEvents(s, es))
  {
    if es != [] {
      var init := es[..|es| - 1];
      BreakerSide(s, init);
      EventOnBreaker(s.breaker, BreakerEvents(s, init), DoAll(s, init), es[|es| - 1]);
    }
  }

  /** Every run of the gate is a run of the semaphore and a run of the breaker, side by side:
      the semaphore sees an acquire exactly for the arrivals the breaker lets through, and
      the breaker loses a probe exactly when a waiter marked as one leaves the queue. What is
      proved of all runs of either part thus holds inside the gate. */
  lemma RunSplits(s: Both, es: seq<Event>)
    ensures DoAll(s, es).gate == GateModel.Run(s.gate, SemaphoreSteps(s, es))
    ensures DoAll(s, es).breaker == B.Run(s.breaker, BreakerEvents(s, es))
  {
    SemaphoreSide(s, es);
    BreakerSide(s, es);
  }

  // ------------------------------------------------------------ time, single flight, cooldown

  /** The clock does not go back. */
  ghost predicate Timely(es: seq<Event>) {
    forall i, j :: 0 <= i < j < |es| ==> es[i].now <= es[j].now
  }

  /** A run at non-decreasing times is one for the breaker too. */
  lemma {:induction false} BreakerEventsOrdered(s: Both, es: seq<Event>)
    requires Timely(es)
    ensures B.Ordered(BreakerEvents(s, es))
    ensures forall x :: x in BreakerEvents(s, es) ==> es != [] && x.time <= es[|es| - 1].now
  {
    if es != [] {
      var init, e := es[..|es| - 1], es[|es| - 1];
      assert init != [] ==> init[|init| - 1] == es[|es| - 2];
      BreakerEventsOrdered(s, init);
      EventKeepsTime(DoAll(s, init), e);
      OrderedAppend(BreakerEvents(s, init), BreakerEvent(DoAll(s, init), e), e.now);
    }
  }

  lemma EventKeepsTime(mid: Both, e: Event)
    ensures |BreakerEvent(mid, e)| <= 1 && forall x :: x in BreakerEvent(mid, e) ==> x.time == e.now
  {
  }

  lemma OrderedAppend(a: seq<B.Event>, more: seq<B.Event>, now: int)
    requires B.Ordered(a) && |more| <= 1
    requires (forall x :: x in a ==> x.time <= now) && (forall x :: x in more ==> x.time == now)
    ensures B.Ordered(a + more) && forall x :: x in a + more ==> x.time <= now
  {
  }

  lemma {:induction false} BreakerPrefix(s: Both, es: seq<Event>, n: nat)
    requires n <= |es|
    ensures BreakerEvents(s, es[..n]) <= BreakerEvents(s, es)
    decreases |es|
  {
    if n < |es| {
      assert es[..|es| - 1][..n] == es[..n];
      BreakerPrefix(s, es[..|es| - 1], n);
    } else {
      assert es[..n] == es;
    }
  }

  /** The breaker's events before event `n` of the gate. */
  function Seen(s: Both, es: seq<Event>, n: nat): seq<B.Event>
    requires n <= |es|
  {
    BreakerEvents(s, es[..n])
  }

  /** Arrival `n` passes the breaker. */
  predicate Enters(s: Both, es: seq<Event>, n: nat)
    requires n < |es|
  {
    es[n].Arrive? && es[n].weight > 0 && B.MaybeHalfOpen(DoAll(s, es[..n]).breaker, es[n].now).1 != B.Open
  }

  /** An arrival that passes is an acquire of the breaker's run that passes, at the same time
      and from the same state. */
  lemma EntryIsPass(s: Both, es: seq<Event>, n: nat)
    requires n < |es| && Enters(s, es, n)
    ensures var all, p := BreakerEvents(s, es), |Seen(s, es, n)|;
            && p < |all| && all[..p] == Seen(s, es, n) && all[p] == B.Event(es[n].now, B.Acquire)
            && B.Before(s.breaker, all, p) == DoAll(s, es[..n]).breaker
            && B.Passes(s.breaker, all, p)
  {
    assert es[..n + 1][..n] == es[..n];
    BreakerPrefix(s, es, n);
    BreakerPrefix(s, es, n + 1);
    BreakerSide(s, es[..n]);
  }

  lemma {:induction false} SeenGrows(s: Both, es: seq<Event>, i: nat, j: nat)
    requires i < j <= |es| && Enters(s, es, i)
    ensures |Seen(s, es, i)| < |Seen(s, es, j)|
  {
    assert es[..j][..i] == es[..i];
    EntryIsPass(s, es[..j], i);
  }

  /** What arrival `n` is answered. */
  function Answer(s: Both, es: seq<Event>, n: nat): Admission
    requires n < |es| && es[n].Arrive?
  {
    Admit(DoAll(s, es[..n]).gate, DoAll(s, es[..n]).breaker, es[n].intention, es[n].weight, es[n].now).2
  }

  /** The public answer to an arrival, at any moment of any run. It is turned away by the breaker
      exactly when that is half-open, or open with its cooldown not over. Otherwise it is granted
      exactly when the decision allows it, refused for a full queue exactly when it can be neither
      granted nor queued, and the answer is what happened: a grant is recorded as one, and a
      queued request is the last in line, marked as the probe if it is the one. */
  lemma AnswersAreTrue(s: Both, es: seq<Event>, n: nat)
    requires s.breaker.probeStarted <==> s.breaker.mode == B.HalfOpen
    requires n < |es| && es[n].Arrive?
    ensures var before, after, answer := DoAll(s, es[..n]), DoAll(s, es[..n + 1]), Answer(s, es, n);
            var b, g, e := before.breaker, before.gate, es[n];
            var away := b.mode == B.HalfOpen || (b.mode == B.Open && e.now - b.openedAt < b.cooldownMs);
            && (answer == InvalidWeight <==> e.weight <= 0)
            && (answer == CircuitOpen <==> e.weight > 0 && away)
            && (answer == Granted <==> e.weight > 0 && !away && GateModel.CanGrant(g, e.intention, e.weight))
            && (answer == QueueFull <==>
                  e.weight > 0 && !away && !GateModel.CanGrant(g, e.intention, e.weight) && |g.waiters| >= g.maxQueueDepth)
            && (answer == Granted <==> |after.gate.granted| > |g.granted|)
            && (answer == Queued <==> |after.gate.waiters| > |g.waiters|)
            && (answer == Queued ==> after.gate.waiters[|g.waiters|].wasProbe == (b.mode == B.Open))
            && (answer in {InvalidWeight, CircuitOpen} ==> after.gate == g)
            && (b.mode == B.Closed ==> after.breaker == b)
  {
    var before, e := DoAll(s, es[..n]), es[n];
    assert es[..n + 1][..n] == es[..n];
    BreakerSide(s, es[..n]);
    B.ProbeIffHalfOpen(s.breaker, BreakerEvents(s, es[..n]));
    D.AnswersAreTrue(before.gate, e.intention, e.weight, B.MaybeHalfOpen(before.breaker, e.now).1 == B.HalfOpen);
  }

  /** Single flight at the gate: between two arrivals that pass while the breaker is not closed
      it has opened again, at least the cooldown before the second. */
  lemma GateSingleFlight(s: Both, es: seq<Event>, i: nat, j: nat) returns (k: nat)
    requires s.breaker.probeStarted <==> s.breaker.mode == B.HalfOpen
    requires i < j < |es| && Enters(s, es, i) && Enters(s, es, j)
    requires DoAll(s, es[..i]).breaker.mode != B.Closed && DoAll(s, es[..j]).breaker.mode != B.Closed
    ensures |Seen(s, es, i)| < k < |Seen(s, es, j)| <= |BreakerEvents(s, es)|
    ensures B.Opens(s.breaker, BreakerEvents(s, es), k)
    ensures es[j].now - BreakerEvents(s, es)[k].time >= DoAll(s, es[..j]).breaker.cooldownMs
  {
    EntryIsPass(s, es, i);
    EntryIsPass(s, es, j);
    SeenGrows(s, es, i, j);
    k := B.SingleFlight(s.breaker, BreakerEvents(s, es), |Seen(s, es, i)|, |Seen(s, es, j)|);
  }

  /** The cooldown at the gate: no arrival passes sooner after the breaker's latest opening than
      the cooldown that was in force when the half-open episode began. */
  lemma GateCooldown(s: Both, es: seq<Event>, n: nat) returns (m: nat)
    requires s.breaker.mode == B.Closed && !s.breaker.probeStarted && Timely(es)
    requires n < |es| && Enters(s, es, n) && B.LastOpening(s.breaker, Seen(s, es, n)) >= 0
    ensures var all, k := BreakerEvents(s, es), B.LastOpening(s.breaker, Seen(s, es, n));
            && k < m <= |Seen(s, es, n)| < |all| && B.StartsEpisode(s.breaker, all, m, all[k].time)
            && es[n].now >= all[k].time + B.Before(s.breaker, all, m).cooldownMs
  {
    EntryIsPass(s, es, n);
    BreakerEventsOrdered(s, es);
    m := B.CooldownIsRespected(s.breaker, BreakerEvents(s, es), |Seen(s, es, n)|);
  }

  predicate OrdinaryEvent(e: Event) {
    match e
    case Arrive(_, w, _) => w <= SCALE
    case OnSemaphore(step, _) => P.OrdinaryStep(step)
    case _ => true
  }

  lemma {:induction false} OrdinaryEventsSplit(s: Both, es: seq<Event>)
    requires forall e :: e in es ==> OrdinaryEvent(e)
    ensures forall x :: x in SemaphoreSteps(s, es) ==> P.OrdinaryStep(x)
  {
    if es != [] {
      assert es[|es| - 1] in es;
      OrdinaryEventsSplit(s, es[..|es| - 1]);
    }
  }

  /** The public gate keeps its accounts, its probe flag and its queue awake over every run:
      with requests of weight at most 1 and whole reservations, whenever someone waits a
      permit is held or the release timer is armed, whatever the breaker does meanwhile. */
  lemma GateOverRuns(hardCap: int, softLimit: int, depth: int, rs: Record, b: B.Breaker, es: seq<Event>)
    requires b.probeStarted <==> b.mode == B.HalfOpen
    requires P.Whole(rs) && forall e :: e in es ==> OrdinaryEvent(e)
    ensures var s := DoAll(Both(GateModel.Fresh(hardCap, softLimit, depth, rs), b), es);
            && C.Valid(s.gate)
            && (s.breaker.probeStarted <==> s.breaker.mode == B.HalfOpen)
            && (s.gate.waiters != [] ==> s.gate.held != [] || s.gate.timerArmed)
  {
    var s := Both(GateModel.Fresh(hardCap, softLimit, depth, rs), b);
    RunSplits(s, es);
    C.FreshIsValid(hardCap, softLimit, depth, rs);
    C.ConservationOverRuns(s.gate, SemaphoreSteps(s, es));
    B.ProbeIffHalfOpen(b, BreakerEvents(s, es));
    OrdinaryEventsSplit(s, es);
    P.NoStrandedWaiterWhole(hardCap, softLimit, depth, rs, SemaphoreSteps(s, es));
  }
}
