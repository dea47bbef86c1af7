/** The state of the gate's semaphore and what each of its operations does to it. */
module GateModel {
  import opened Wrappers
  import opened Reservations

  type Pos = w: int | w > 0 witness 1
  type Limit = n: int | n >= SCALE witness SCALE

  /** A request; `id` is its arrival number, which the program keeps only as object identity. */
  datatype Request = Request(id: nat, intention: Intention, weight: Pos, wasProbe: bool)

  /** The semaphore's fields, plus three records of the past that no operation reads:
      the permits not yet released (`held`), every grant in order (`granted`) and the
      number of requests that have arrived. */
  datatype Gate = Gate(
    active: int,
    limit: Limit,
    hardCap: Limit,
    softLimit: Limit,
    maxQueueDepth: int,
    reservations: Record,
    activeBy: map<Intention, int>,
    queuedBy: map<Intention, int>,
    waiters: seq<Request>,
    pending: seq<Request>,
    timerArmed: bool,
    held: seq<Request>,
    granted: seq<Request>,
    arrivals: nat)

  datatype Outcome = Granted | Queued | InvalidWeight | QueueFull

  /** A counter record read with default 0. */
  function Get(m: map<Intention, int>, k: Intention): int {
    if k in m then m[k] else 0
  }

  // ------------------------------------------------------------ measures of a request list

  function Weight(s: seq<Request>): nat {
    if s == [] then 0 else Weight(s[..|s| - 1]) + s[|s| - 1].weight
  }

  function WeightOf(s: seq<Request>, k: Intention): nat {
    if s == [] then 0
    else WeightOf(s[..|s| - 1], k) + (if s[|s| - 1].intention == k then s[|s| - 1].weight else 0)
  }

  function Count(s: seq<Request>, k: Intention): nat {
    if s == [] then 0
    else Count(s[..|s| - 1], k) + (if s[|s| - 1].intention == k then 1 else 0)
  }

  function IndexOf(s: seq<Request>, id: nat): (i: int)
    ensures -1 <= i < |s|
    ensures i >= 0 ==> s[i].id == id
    ensures i < 0 ==> forall j :: 0 <= j < |s| ==> s[j].id != id
  {
    if s == [] then -1
    else if s[|s| - 1].id == id then |s| - 1
    else IndexOf(s[..|s| - 1], id)
  }

  function Without(s: seq<Request>, i: nat): seq<Request>
    requires i < |s|
  {
    s[..i] + s[i + 1..]
  }

  // ------------------------------------------------------------ the grant decision

  predicate InDemand(activeBy: map<Intention, int>, queuedBy: map<Intention, int>, k: Intention) {
    Get(activeBy, k) + Get(queuedBy, k) != 0
  }

  /** What intention `i` must leave free for entry `e`. */
  function Need(e: Reservation, activeBy: map<Intention, int>, queuedBy: map<Intention, int>, i: Intention): nat {
    if e.key == i || !InDemand(activeBy, queuedBy, e.key) then 0
    else Max(0, e.amount - Get(activeBy, e.key))
  }

  /** Reserved but unfilled slots of the other intentions that have demand. */
  function Unfilled(eff: seq<Reservation>, activeBy: map<Intention, int>, queuedBy: map<Intention, int>, i: Intention): nat {
    if eff == [] then 0
    else Unfilled(eff[..|eff| - 1], activeBy, queuedBy, i) + Need(eff[|eff| - 1], activeBy, queuedBy, i)
  }

  function Capacity(g: Gate, i: Intention): int {
    g.limit - Unfilled(Effective(g.reservations, g.limit), g.activeBy, g.queuedBy, i)
  }

  predicate CanGrant(g: Gate, i: Intention, w: int) {
    g.active + w <= g.limit &&
    ( Get(g.activeBy, i) + w <= Lookup(Effective(g.reservations, g.limit), i)
      || OverSubscribed(g.reservations, g.limit)
      || g.active + w <= Capacity(g, i))
  }

  // ------------------------------------------------------------ operations

  function Grant(g: Gate, r: Request): Gate {
    g.(active := g.active + r.weight,
       activeBy := g.activeBy[r.intention := Get(g.activeBy, r.intention) + r.weight],
       held := g.held + [r],
       granted := g.granted + [r])
  }

  function Enqueue(g: Gate, r: Request): Gate {
    g.(waiters := g.waiters + [r],
       queuedBy := g.queuedBy[r.intention := Get(g.queuedBy, r.intention) + 1])
  }

  function Uncount(g: Gate, k: Intention): Gate {
    g.(queuedBy := g.queuedBy[k := Max(0, Get(g.queuedBy, k) - 1)])
  }

  /** One pass over the queue: `todo` is still to be looked at, `kept` was refused. */
  function Drain(g: Gate, todo: seq<Request>, kept: seq<Request>): (d: Gate)
    ensures d == g.(active := d.active, activeBy := d.activeBy, queuedBy := d.queuedBy,
                    waiters := d.waiters, held := d.held, granted := d.granted)
    ensures g.active <= d.active <= Max(g.active, g.limit)
    decreases |todo|
  {
    if todo == [] then g.(waiters := kept)
    else if CanGrant(g, todo[0].intention, todo[0].weight) then
      Drain(Grant(Uncount(g, todo[0].intention), todo[0]), todo[1..], kept)
    else Drain(g, todo[1..], kept + [todo[0]])
  }

  function DrainWaiters(g: Gate): Gate {
    if g.waiters == [] then g else Drain(g, g.waiters, [])
  }

  function Acquire(g: Gate, i: Intention, w: int, wasProbe: bool): (Gate, Outcome) {
    if w <= 0 then (g, InvalidWeight)
    else
      var r := Request(g.arrivals, i, w, wasProbe);
      var g1 := g.(arrivals := g.arrivals + 1);
      if CanGrant(g, i, w) then (Grant(g1, r), Granted)
      else if |g.waiters| >= g.maxQueueDepth then (g1, QueueFull)
      else (Enqueue(g1, r), Queued)
  }

  /** The permit's release callback: a second call finds the permit gone and does nothing. */
  function Release(g: Gate, id: nat): Gate {
    var i := IndexOf(g.held, id);
    if i < 0 then g
    else g.(held := Without(g.held, i), pending := g.pending + [g.held[i]], timerArmed := true)
  }

  function SettleActive(active: int, batch: seq<Request>): int {
    if batch == [] then active
    else Max(0, SettleActive(active, batch[..|batch| - 1]) - batch[|batch| - 1].weight)
  }

  function SettleBy(activeBy: map<Intention, int>, batch: seq<Request>): map<Intention, int> {
    if batch == [] then activeBy
    else
      var m := SettleBy(activeBy, batch[..|batch| - 1]);
      var r := batch[|batch| - 1];
      m[r.intention := Max(0, Get(m, r.intention) - r.weight)]
  }

  function SettlePending(g: Gate): Gate {
    g.(timerArmed := false, pending := [],
       active := SettleActive(g.active, g.pending),
       activeBy := SettleBy(g.activeBy, g.pending))
  }

  function FireTimer(g: Gate): Gate {
    if !g.timerArmed then g else DrainWaiters(SettlePending(g))
  }

  /** Queue timeout or client abort. */
  function RemoveWaiter(g: Gate, id: nat): Gate {
    var i := IndexOf(g.waiters, id);
    if i < 0 then g
    else Uncount(g.(waiters := Without(g.waiters, i)), g.waiters[i].intention)
  }

  function Resize(g: Gate, scaled: int): Gate {
    var clamped := Max(SCALE, Min(scaled, g.hardCap));
    if clamped == g.limit then g else DrainWaiters(g.(limit := clamped))
  }

  function SetHardCap(g: Gate, units: int): Gate {
    var cap: Limit := Max(1, units) * SCALE;
    if cap == g.hardCap then g
    else
      var g1 := g.(hardCap := cap, softLimit := Min(g.softLimit, cap));
      if g.limit > cap then DrainWaiters(g1.(limit := cap)) else g1
  }

  function SetSoftLimit(g: Gate, units: int): Gate {
    g.(softLimit := Max(1, units) * SCALE)
  }

  /** Counter records gain a 0 for every reserved key they lack. */
  function WithKeys(m: map<Intention, int>, rs: seq<Reservation>): map<Intention, int> {
    if rs == [] then m
    else
      var m' := WithKeys(m, rs[..|rs| - 1]);
      if rs[|rs| - 1].key in m' then m' else m'[rs[|rs| - 1].key := 0]
  }

  function Reconfigure(g: Gate, maxQueueDepth: Option<int>, reservations: Option<Record>): Gate {
    var g1 := if maxQueueDepth.Some? then g.(maxQueueDepth := maxQueueDepth.value) else g;
    if reservations.None? then g1
    else g1.(reservations := reservations.value,
             activeBy := WithKeys(g.activeBy, reservations.value),
             queuedBy := WithKeys(g.queuedBy, reservations.value))
  }

  function Fresh(hardCap: int, softLimit: int, maxQueueDepth: int, rs: Record): Gate {
    var hard: Limit := Max(1, hardCap) * SCALE;
    var soft: Limit := Max(1, softLimit) * SCALE;
    Gate(0, Max(SCALE, Min(soft, hard)), hard, soft, maxQueueDepth, rs,
         WithKeys(map[], rs), WithKeys(map[], rs), [], [], false, [], [], 0)
  }

  // ------------------------------------------------------------ runs

  datatype Step =
    | AcquireStep(intention: Intention, weight: int, wasProbe: bool)
    | ReleaseStep(id: nat)
    | TimerStep
    | RemoveStep(id: nat)
    | ResizeStep(scaled: int)
    | HardCapStep(units: int)
    | SoftLimitStep(units: int)
    | ReconfigureStep(maxQueueDepth: Option<int>, reservations: Option<Record>)

  function Apply(g: Gate, s: Step): Gate {
    match s
    case AcquireStep(i, w, p) => Acquire(g, i, w, p).0
    case ReleaseStep(id) => Release(g, id)
    case TimerStep => FireTimer(g)
    case RemoveStep(id) => RemoveWaiter(g, id)
    case ResizeStep(n) => Resize(g, n)
    case HardCapStep(n) => SetHardCap(g, n)
    case SoftLimitStep(n) => SetSoftLimit(g, n)
    case ReconfigureStep(d, rs) => Reconfigure(g, d, rs)
  }

  function Run(g: Gate, steps: seq<Step>): Gate {
    if steps == [] then g else Apply(Run(g, steps[..|steps| - 1]), steps[|steps| - 1])
  }
}
