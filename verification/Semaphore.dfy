/** The gate's semaphore as the program runs it: fields updated in place, loops over the
    queue, the release batch and the reservation record. Every method is proved against the
    corresponding function of GateModel. */
module SemaphoreObject {
  import opened Wrappers
  import opened Reservations
  import M = GateModel
  import opened GateModel

  /** Rounding half up, as the program's conversion to scaled integers does. */
  function Round(x: real): int { (x + 0.5).Floor }

  function Scaled(x: real): int { Round(x * 1000.0) }

  /** A scaled amount is the integer nearest to a thousand times the value. */
  lemma ScaledIsNearest(x: real)
    ensures -0.5 <= Scaled(x) as real - x * 1000.0 <= 0.5
  {
  }

  /** A cap read from the network: NaN and the infinities count as 1. */
  datatype Number = Finite(value: real) | NotFinite

  function Units(n: Number): int {
    if n.Finite? then n.value.Floor else 1
  }

  /** A cap that is not a number is the smallest cap; any other counts its whole permits. */
  lemma CapsFailSafe(n: Number, g: Gate)
    ensures n.NotFinite? ==> M.SetHardCap(g, Units(n)).hardCap == SCALE
    ensures n.Finite? && n.value >= 1.0 ==>
              var whole := M.SetHardCap(g, Units(n)).hardCap / SCALE;
              whole as real <= n.value < whole as real + 1.0
  {
  }

  class Semaphore {
    var active: int
    var limit: Limit
    var hardCap: Limit
    var softLimit: Limit
    var maxQueueDepth: int
    var reservations: Record
    var activeByIntention: map<Intention, int>
    var queuedByIntention: map<Intention, int>
    var waiters: seq<Request>
    var pendingReleases: seq<Request>
    var releaseTimerArmed: bool
    /** Permits whose release callback has not run yet. */
    var outstanding: seq<Request>
    ghost var granted: seq<Request>
    var arrivals: nat
    /** Read only when a timer is armed; no decision depends on them. */
    var releaseCooldownMs: int
    var queueTimeoutMs: int

    ghost function State(): Gate
      reads this
    {
      Gate(active, limit, hardCap, softLimit, maxQueueDepth, reservations, activeByIntention, queuedByIntention,
           waiters, pendingReleases, releaseTimerArmed, outstanding, granted, arrivals)
    }

    constructor (hardCap: real, softLimit: real, releaseCooldownMs: int, maxQueueDepth: int, queueTimeoutMs: int, intentions: Record)
      ensures State() == Fresh(hardCap.Floor, softLimit.Floor, maxQueueDepth, intentions)
      ensures this.releaseCooldownMs == releaseCooldownMs && this.queueTimeoutMs == queueTimeoutMs
    {
      this.releaseCooldownMs, this.queueTimeoutMs := releaseCooldownMs, queueTimeoutMs;
      var hard: Limit := Max(1, hardCap.Floor) * SCALE;
      var soft: Limit := Max(1, softLimit.Floor) * SCALE;
      this.hardCap, this.softLimit := hard, soft;
      this.limit := Max(SCALE, Min(soft, hard));
      this.maxQueueDepth, this.reservations := maxQueueDepth, intentions;
      active, waiters, pendingReleases, releaseTimerArmed, outstanding, granted, arrivals := 0, [], [], false, [], [], 0;
      activeByIntention, queuedByIntention := map[], map[];
      new;
      AddMissingKeys();
    }

    /** Counter records gain a 0 for every reserved key they lack. */
    method AddMissingKeys()
      modifies this`activeByIntention, this`queuedByIntention
      ensures activeByIntention == WithKeys(old(activeByIntention), reservations)
      ensures queuedByIntention == WithKeys(old(queuedByIntention), reservations)
    {
      for n := 0 to |reservations|
        invariant activeByIntention == WithKeys(old(activeByIntention), reservations[..n])
        invariant queuedByIntention == WithKeys(old(queuedByIntention), reservations[..n])
      {
        assert reservations[..n + 1][..n] == reservations[..n];
        var key := reservations[n].key;
        if key !in activeByIntention { activeByIntention := activeByIntention[key := 0]; }
        if key !in queuedByIntention { queuedByIntention := queuedByIntention[key := 0]; }
      }
      assert reservations[..|reservations|] == reservations;
    }

    method Reconfigure(cooldownMs: Option<int>, depth: Option<int>, timeoutMs: Option<int>, intentions: Option<Record>)
      modifies this
      ensures State() == M.Reconfigure(old(State()), depth, intentions)
      ensures releaseCooldownMs == cooldownMs.GetOr(old(releaseCooldownMs))
      ensures queueTimeoutMs == timeoutMs.GetOr(old(queueTimeoutMs))
    {
      releaseCooldownMs, queueTimeoutMs := cooldownMs.GetOr(releaseCooldownMs), timeoutMs.GetOr(queueTimeoutMs);
      Requeue(depth, intentions);
    }

    /** The part of a reconfiguration that the grant decision depends on. */
    method Requeue(depth: Option<int>, intentions: Option<Record>)
      modifies this`maxQueueDepth, this`reservations, this`activeByIntention, this`queuedByIntention
      ensures State() == M.Reconfigure(old(State()), depth, intentions)
    {
      if depth.Some? { maxQueueDepth := depth.value; }
      if intentions.Some? {
        reservations := intentions.value;
        AddMissingKeys();
      }
    }

    /** Room left for `i` after the unfilled reservations of others in demand. */
    method Capacity(i: Intention, eff: seq<Reservation>) returns (room: int)
      ensures room == limit - Unfilled(eff, activeByIntention, queuedByIntention, i)
    {
      var reserved := 0;
      for n := 0 to |eff|
        invariant reserved == Unfilled(eff[..n], activeByIntention, queuedByIntention, i)
      {
        assert eff[..n + 1][..n] == eff[..n];
        var k := eff[n].key;
        if k != i {
          var inUse := Get(activeByIntention, k);
          if inUse + Get(queuedByIntention, k) != 0 {
            reserved := reserved + Max(0, eff[n].amount - inUse);
          }
        }
      }
      assert eff[..|eff|] == eff;
      room := limit - reserved;
    }

    method CanGrant(i: Intention, w: int) returns (ok: bool)
      ensures ok == M.CanGrant(State(), i, w)
    {
      var eff := EffectiveReservations(reservations, limit);
      var reserved := Lookup(eff, i);
      if active + w > limit { return false; }
      if Get(activeByIntention, i) + w <= reserved { return true; }
      var overSubscribed := exists n | 0 <= n < |reservations| :: reservations[n].amount > eff[n].amount;
      if overSubscribed { return active + w <= limit; }
      var room := Capacity(i, eff);
      return active + w <= room;
    }

    method Grant(r: Request)
      modifies this`active, this`activeByIntention, this`outstanding, this`granted
      ensures State() == M.Grant(old(State()), r)
    {
      active := active + r.weight;
      activeByIntention := activeByIntention[r.intention := Get(activeByIntention, r.intention) + r.weight];
      outstanding := outstanding + [r];
      granted := granted + [r];
    }

    method Enqueue(r: Request) returns (ok: bool)
      modifies this`waiters, this`queuedByIntention
      ensures ok == (old(|waiters|) < maxQueueDepth)
      ensures State() == if ok then M.Enqueue(old(State()), r) else old(State())
    {
      if |waiters| >= maxQueueDepth { return false; }
      waiters := waiters + [r];
      queuedByIntention := queuedByIntention[r.intention := Get(queuedByIntention, r.intention) + 1];
      return true;
    }

    method RemoveWaiter(id: nat) returns (removed: bool)
      modifies this`waiters, this`queuedByIntention
      ensures removed == exists r :: r in old(waiters) && r.id == id
      ensures State() == M.RemoveWaiter(old(State()), id)
    {
      var i := IndexOf(waiters, id);
      if i < 0 { return false; }
      var w := waiters[i];
      assert w in waiters;
      waiters := waiters[..i] + waiters[i + 1..];
      queuedByIntention := queuedByIntention[w.intention := Max(0, Get(queuedByIntention, w.intention) - 1)];
      return true;
    }

    /** One pass over the queue, granting whoever can be granted as it goes. */
    method DrainWaiters()
      modifies this
      ensures unchanged(`releaseCooldownMs, `queueTimeoutMs)
      ensures State() == M.DrainWaiters(old(State()))
    {
      if |waiters| == 0 { return; }
      var remaining: seq<Request> := [];
      var line := waiters;
      for n := 0 to |line|
        invariant waiters == line == old(waiters)
        invariant unchanged(`releaseCooldownMs, `queueTimeoutMs)
        invariant Drain(State(), line[n..], remaining) == Drain(old(State()), line, [])
      {
        var next := line[n];
        assert line[n..][0] == next && line[n..][1..] == line[n + 1..];
        var ok := CanGrant(next.intention, next.weight);
        if !ok {
          remaining := remaining + [next];
        } else {
          ghost var before := State();
          queuedByIntention := queuedByIntention[next.intention := Max(0, Get(queuedByIntention, next.intention) - 1)];
          assert State() == Uncount(before, next.intention);
          Grant(next);
        }
      }
      waiters := remaining;
    }

    /** A permit's release callback; only its first call counts. */
    method Release(id: nat)
      modifies this`outstanding, this`pendingReleases, this`releaseTimerArmed
      ensures State() == M.Release(old(State()), id)
    {
      var i := IndexOf(outstanding, id);
      if i < 0 { return; }
      pendingReleases := pendingReleases + [outstanding[i]];
      outstanding := outstanding[..i] + outstanding[i + 1..];
      if !releaseTimerArmed { releaseTimerArmed := true; }
    }

    /** Takes the whole batch of pending releases off the counters. */
    method SettleBatch()
      modifies this`releaseTimerArmed, this`pendingReleases, this`active, this`activeByIntention
      ensures State() == SettlePending(old(State()))
    {
      releaseTimerArmed := false;
      var batch := pendingReleases;
      pendingReleases := [];
      for n := 0 to |batch|
        invariant pendingReleases == [] && !releaseTimerArmed
        invariant active == SettleActive(old(active), batch[..n])
        invariant activeByIntention == SettleBy(old(activeByIntention), batch[..n])
      {
        assert batch[..n + 1][..n] == batch[..n];
        var rel := batch[n];
        active := Max(0, active - rel.weight);
        activeByIntention := activeByIntention[rel.intention := Max(0, Get(activeByIntention, rel.intention) - rel.weight)];
      }
      assert batch[..|batch|] == batch;
    }

    method ReleaseTimerFires()
      requires releaseTimerArmed
      modifies this
      ensures unchanged(`releaseCooldownMs, `queueTimeoutMs)
      ensures State() == FireTimer(old(State()))
    {
      SettleBatch();
      DrainWaiters();
    }

    method Resize(newLimit: real) returns (changed: bool)
      modifies this
      ensures unchanged(`releaseCooldownMs, `queueTimeoutMs)
      ensures State() == M.Resize(old(State()), Scaled(newLimit))
      ensures changed == (limit != old(limit))
    {
      var clamped := Max(SCALE, Min(Scaled(newLimit), hardCap));
      if clamped == limit { return false; }
      limit := clamped;
      DrainWaiters();
      return true;
    }

    method SetHardCap(newHardCap: Number) returns (changed: bool)
      modifies this
      ensures unchanged(`releaseCooldownMs, `queueTimeoutMs)
      ensures State() == M.SetHardCap(old(State()), Units(newHardCap))
      ensures changed == (hardCap != old(hardCap))
    {
      var cap := Max(1, Units(newHardCap)) * SCALE;
      if cap == hardCap { return false; }
      hardCap := cap;
      if softLimit > cap { softLimit := cap; }
      if limit > cap {
        limit := cap;
        DrainWaiters();
      }
      return true;
    }

    method SetSoftLimit(newSoftLimit: Number) returns (changed: bool)
      modifies this`softLimit
      ensures State() == M.SetSoftLimit(old(State()), Units(newSoftLimit))
      ensures changed == (softLimit != old(softLimit))
    {
      var v := Max(1, Units(newSoftLimit)) * SCALE;
      if v == softLimit { return false; }
      softLimit := v;
      return true;
    }

    /** The semaphore's part of an acquire that the breaker let through. */
    method Acquire(i: Intention, weight: real, wasProbe: bool) returns (outcome: Outcome)
      modifies this
      ensures unchanged(`releaseCooldownMs, `queueTimeoutMs)
      ensures (State(), outcome) == M.Acquire(old(State()), i, Scaled(weight), wasProbe)
    {
      var w := Scaled(weight);
      if w <= 0 { return InvalidWeight; }
      var r := Request(arrivals, i, w, wasProbe);
      arrivals := arrivals + 1;
      var ok := CanGrant(i, w);
      assert ok == M.CanGrant(old(State()), i, w);
      if ok {
        Grant(r);
        return Granted;
      }
      var queued := Enqueue(r);
      return if queued then Queued else QueueFull;
    }
  }
}
