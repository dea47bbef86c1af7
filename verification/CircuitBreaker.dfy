/** The circuit breaker: a three-state machine with a single-flight probe and a pruned log
    of concurrency 429s. The clock is a parameter of every operation that reads it. */
module CircuitBreaking {
  import opened Wrappers

  datatype Mode = Closed | Open | HalfOpen
  datatype Kind = Concurrency | RateLimit | Gateway

  datatype Breaker = Breaker(
    mode: Mode, concurrency429s: seq<int>, openedAt: int, probeStarted: bool,
    threshold: int, windowMs: int, cooldownMs: int)

  function Fresh(threshold: int, windowMs: int, cooldownMs: int): Breaker {
    Breaker(Closed, [], 0, false, threshold, windowMs, cooldownMs)
  }

  /** The times less than `window` ago. */
  function Recent(log: seq<int>, now: int, window: int): seq<int> {
    if log == [] then []
    else
      var init := Recent(log[..|log| - 1], now, window);
      if now - log[|log| - 1] < window then init + [log[|log| - 1]] else init
  }

  /** What an acquire sees; Open means it is rejected. */
  function MaybeHalfOpen(b: Breaker, now: int): (Breaker, Mode) {
    if b.mode == Open then
      if b.probeStarted then (b, Open)
      else if now - b.openedAt >= b.cooldownMs then (b.(probeStarted := true, mode := HalfOpen), HalfOpen)
      else (b, Open)
    else if b.mode == HalfOpen && b.probeStarted then (b, Open)
    else (b, b.mode)
  }

  function Record429(b: Breaker, kind: Kind, now: int): Breaker {
    if kind != Concurrency then b
    else
      var log := Recent(b.concurrency429s + [now], now, b.windowMs);
      if |log| >= b.threshold && b.mode != Open
      then b.(concurrency429s := log, mode := Open, openedAt := now, probeStarted := false)
      else b.(concurrency429s := log)
  }

  function RecordSuccess(b: Breaker): Breaker {
    if b.mode == HalfOpen then b.(mode := Closed, concurrency429s := [], probeStarted := false) else b
  }

  function ResetProbe(b: Breaker, now: int): Breaker {
    if b.mode == HalfOpen && b.probeStarted then b.(probeStarted := false, mode := Open, openedAt := now) else b
  }

  /** Each setting is replaced if given; the log is cut to the window then in force. */
  function Reconfigure(b: Breaker, threshold: Option<int>, windowMs: Option<int>, cooldownMs: Option<int>, now: int): Breaker {
    b.(threshold := threshold.GetOr(b.threshold), windowMs := windowMs.GetOr(b.windowMs),
       cooldownMs := cooldownMs.GetOr(b.cooldownMs),
       concurrency429s := Recent(b.concurrency429s, now, windowMs.GetOr(b.windowMs)))
  }

  /** The breaker object of the program. */
  class CircuitBreaker {
    var mode: Mode
    var concurrency429s: seq<int>
    var openedAt: int
    var halfOpenProbeStarted: bool
    var threshold: int
    var windowMs: int
    var cooldownMs: int

    ghost function State(): Breaker
      reads this
    {
      Breaker(mode, concurrency429s, openedAt, halfOpenProbeStarted, threshold, windowMs, cooldownMs)
    }

    constructor (threshold: int, windowMs: int, cooldownMs: int)
      ensures State() == Fresh(threshold, windowMs, cooldownMs)
    {
      mode, concurrency429s, openedAt, halfOpenProbeStarted := Closed, [], 0, false;
      this.threshold, this.windowMs, this.cooldownMs := threshold, windowMs, cooldownMs;
    }

    /** In-place removal of the entries that have left the window. */
    method Prune(now: int)
      modifies this`concurrency429s
      ensures concurrency429s == Recent(old(concurrency429s), now, windowMs)
    {
      var kept: seq<int> := [];
      for n := 0 to |concurrency429s|
        invariant concurrency429s == old(concurrency429s)
        invariant kept == Recent(concurrency429s[..n], now, windowMs)
      {
        assert concurrency429s[..n + 1][..n] == concurrency429s[..n];
        if now - concurrency429s[n] < windowMs { kept := kept + [concurrency429s[n]]; }
      }
      assert concurrency429s[..|concurrency429s|] == concurrency429s;
      concurrency429s := kept;
    }

    method Enter(now: int) returns (seen: Mode)
      modifies this`mode, this`halfOpenProbeStarted
      ensures (State(), seen) == MaybeHalfOpen(old(State()), now)
    {
      if mode == Open {
        if halfOpenProbeStarted { return Open; }
        if now - openedAt >= cooldownMs {
          halfOpenProbeStarted := true;
          mode := HalfOpen;
        }
      } else if mode == HalfOpen && halfOpenProbeStarted {
        return Open;
      }
      return mode;
    }

    method Note429(kind: Kind, now: int)
      modifies this
      ensures State() == Record429(old(State()), kind, now)
    {
      if kind != Concurrency { return; }
      concurrency429s := concurrency429s + [now];
      Prune(now);
      if |concurrency429s| >= threshold {
        if mode == Closed || mode == HalfOpen {
          mode, openedAt, halfOpenProbeStarted := Open, now, false;
        }
      }
    }

    method NoteSuccess()
      modifies this
      ensures State() == RecordSuccess(old(State()))
    {
      if mode == HalfOpen {
        mode, concurrency429s, halfOpenProbeStarted := Closed, [], false;
      }
    }

    method ProbeLost(now: int)
      modifies this
      ensures State() == ResetProbe(old(State()), now)
    {
      if mode == HalfOpen && halfOpenProbeStarted {
        halfOpenProbeStarted, mode, openedAt := false, Open, now;
      }
    }

    method Configure(threshold: Option<int>, windowMs: Option<int>, cooldownMs: Option<int>, now: int)
      modifies this
      ensures State() == Reconfigure(old(State()), threshold, windowMs, cooldownMs, now)
    {
      if threshold.Some? { this.threshold := threshold.value; }
      if windowMs.Some? { this.windowMs := windowMs.value; }
      if cooldownMs.Some? { this.cooldownMs := cooldownMs.value; }
      Prune(now);
    }
  }

  // ------------------------------------------------------------ runs

  datatype Action =
    | Acquire
    | Saw429(kind: Kind)
    | Success
    | LoseProbe
    | Configure(threshold: Option<int>, windowMs: Option<int>, cooldownMs: Option<int>)

  datatype Event = Event(time: int, action: Action)

  function Apply(b: Breaker, e: Event): Breaker {
    match e.action
    case Acquire => MaybeHalfOpen(b, e.time).0
    case Saw429(k) => Record429(b, k, e.time)
    case Success => RecordSuccess(b)
    case LoseProbe => ResetProbe(b, e.time)
    case Configure(t, w, c) => Reconfigure(b, t, w, c, e.time)
  }

  function Run(b: Breaker, es: seq<Event>): Breaker {
    if es == [] then b else Apply(Run(b, es[..|es| - 1]), es[|es| - 1])
  }

  /** The state just before event `n`. */
  function Before(b: Breaker, es: seq<Event>, n: nat): Breaker
    requires n <= |es|
  {
    Run(b, es[..n])
  }

  predicate Passes(b: Breaker, es: seq<Event>, n: nat)
    requires n < |es|
  {
    es[n].action == Acquire && MaybeHalfOpen(Before(b, es, n), es[n].time).1 != Open
  }

  /** Event `n` opens the breaker. */
  predicate Opens(b: Breaker, es: seq<Event>, n: nat)
    requires n < |es|
  {
    Before(b, es, n).mode != Open && Before(b, es, n + 1).mode == Open
  }

  ghost predicate Ordered(es: seq<Event>) {
    forall i, j :: 0 <= i < j < |es| ==> es[i].time <= es[j].time
  }

  lemma NextState(b: Breaker, es: seq<Event>, n: nat)
    requires n < |es|
    ensures Before(b, es, n + 1) == Apply(Before(b, es, n), es[n])
  {
    assert es[..n + 1][..n] == es[..n];
  }

  // ------------------------------------------------------------ single flight

  lemma {:induction false} ProbeIffHalfOpen(b: Breaker, es: seq<Event>)
    requires b.probeStarted <==> b.mode == HalfOpen
    ensures Run(b, es).probeStarted <==> Run(b, es).mode == HalfOpen
  {
    if es != [] { ProbeIffHalfOpen(b, es[..|es| - 1]); }
  }

  /** While not closed, an acquire passes only from Open with the cooldown over, and it then
      starts the half-open episode; every other acquire is rejected. */
  lemma PassWhileNotClosed(b: Breaker, es: seq<Event>, n: nat)
    requires b.probeStarted <==> b.mode == HalfOpen
    requires n < |es| && es[n].action == Acquire && Before(b, es, n).mode != Closed
    ensures Passes(b, es, n) <==>
            Before(b, es, n).mode == Open && es[n].time - Before(b, es, n).openedAt >= Before(b, es, n).cooldownMs
    ensures Passes(b, es, n) ==> Before(b, es, n + 1).mode == HalfOpen
    ensures !Passes(b, es, n) ==> Before(b, es, n + 1) == Before(b, es, n)
  {
    ProbeIffHalfOpen(b, es[..n]);
    NextState(b, es, n);
  }

  /** A closed breaker lets everyone pass and is not changed by it. */
  lemma ClosedLetsPass(b: Breaker, es: seq<Event>, n: nat)
    requires n < |es| && es[n].action == Acquire && Before(b, es, n).mode == Closed
    ensures Passes(b, es, n) && Before(b, es, n + 1) == Before(b, es, n)
  {
    NextState(b, es, n);
  }

  /** Exactly which acquires are turned away: those that find a half-open breaker, or an open one
      whose cooldown is not over. */
  lemma TurnedAwayIff(b: Breaker, es: seq<Event>, n: nat)
    requires b.probeStarted <==> b.mode == HalfOpen
    requires n < |es| && es[n].action == Acquire
    ensures !Passes(b, es, n) <==>
            var s := Before(b, es, n);
            s.mode == HalfOpen || (s.mode == Open && es[n].time - s.openedAt < s.cooldownMs)
  {
    ProbeIffHalfOpen(b, es[..n]);
  }

  /** How often `t` occurs in the log. */
  function Occurs(log: seq<int>, t: int): nat {
    if log == [] then 0 else Occurs(log[..|log| - 1], t) + (if log[|log| - 1] == t then 1 else 0)
  }

  /** Pruning keeps exactly the times less than the window ago, each as often as it was there. */
  lemma {:induction false} RecentIsExact(log: seq<int>, now: int, window: int, t: int)
    ensures Occurs(Recent(log, now, window), t) == if now - t < window then Occurs(log, t) else 0
  {
    if log != [] {
      var init := Recent(log[..|log| - 1], now, window);
      RecentIsExact(log[..|log| - 1], now, window, t);
      assert (init + [log[|log| - 1]])[..|init|] == init;
    }
  }

  /** A concurrency 429 after which as many as the threshold lie in the window. */
  predicate Trips(b: Breaker, es: seq<Event>, n: nat)
    requires n < |es|
  {
    var s := Before(b, es, n);
    es[n].action == Saw429(Concurrency) && |Recent(s.concurrency429s + [es[n].time], es[n].time, s.windowMs)| >= s.threshold
  }

  /** Every change of mode there is, and what causes it: a tripping 429 opens a breaker that is
      closed or half-open, a lost probe reopens it, a success closes it, an acquire after the
      cooldown starts the half-open episode. Each clause holds both ways. */
  lemma ModeChanges(b: Breaker, es: seq<Event>, n: nat)
    requires b.probeStarted <==> b.mode == HalfOpen
    requires n < |es|
    ensures var s, s' := Before(b, es, n), Before(b, es, n + 1);
            && (s.mode == Closed ==> (s'.mode == Open <==> Trips(b, es, n)) && s'.mode != HalfOpen)
            && (s.mode == HalfOpen ==>
                  && (s'.mode == Open <==> Trips(b, es, n) || es[n].action == LoseProbe)
                  && (s'.mode == Closed <==> es[n].action == Success))
            && (s.mode == Open ==>
                  && (s'.mode == HalfOpen <==> es[n].action == Acquire && es[n].time - s.openedAt >= s.cooldownMs)
                  && s'.mode != Closed)
            && (s.mode != Open && s'.mode == Open ==> s'.openedAt == es[n].time)
            && (s.mode == HalfOpen && s'.mode == Closed ==> s'.concurrency429s == [])
  {
    ProbeIffHalfOpen(b, es[..n]);
    NextState(b, es, n);
  }

  /** A reconfiguration changes the settings that are given and, of the rest, only the log. */
  lemma ConfigureTakesEffect(b: Breaker, es: seq<Event>, n: nat)
    requires n < |es| && es[n].action.Configure?
    ensures var s, s', a := Before(b, es, n), Before(b, es, n + 1), es[n].action;
            && s'.threshold == (if a.threshold.Some? then a.threshold.value else s.threshold)
            && s'.windowMs == (if a.windowMs.Some? then a.windowMs.value else s.windowMs)
            && s'.cooldownMs == (if a.cooldownMs.Some? then a.cooldownMs.value else s.cooldownMs)
            && s'.mode == s.mode && s'.openedAt == s.openedAt && s'.probeStarted == s.probeStarted
            && forall t :: Occurs(s'.concurrency429s, t) == if es[n].time - t < s'.windowMs then Occurs(s.concurrency429s, t) else 0
  {
    NextState(b, es, n);
    var s, s' := Before(b, es, n), Before(b, es, n + 1);
    forall t ensures Occurs(s'.concurrency429s, t) == if es[n].time - t < s'.windowMs then Occurs(s.concurrency429s, t) else 0 {
      RecentIsExact(s.concurrency429s, es[n].time, s'.windowMs, t);
    }
  }

  /** Between a moment when the breaker is not open and a later one when it is, it opened. */
  lemma {:induction false} OpeningBetween(b: Breaker, es: seq<Event>, i: nat, j: nat) returns (k: nat)
    requires i <= j <= |es| && Before(b, es, i).mode != Open && Before(b, es, j).mode == Open
    ensures i <= k < j && Opens(b, es, k) && Before(b, es, j).openedAt == es[k].time
    decreases j
  {
    NextState(b, es, j - 1);
    if Before(b, es, j - 1).mode != Open {
      k := j - 1;
    } else {
      k := OpeningBetween(b, es, i, j - 1);
    }
  }

  /** Single flight: between two acquires that pass while the breaker is not closed it has
      opened again, and the second comes at least the cooldown after that opening. So one
      acquire at most passes per half-open episode. */
  lemma SingleFlight(b: Breaker, es: seq<Event>, i: nat, j: nat) returns (k: nat)
    requires b.probeStarted <==> b.mode == HalfOpen
    requires i < j < |es| && Passes(b, es, i) && Passes(b, es, j)
    requires Before(b, es, i).mode != Closed && Before(b, es, j).mode != Closed
    ensures i < k < j && Opens(b, es, k)
    ensures es[j].time - es[k].time >= Before(b, es, j).cooldownMs
  {
    PassWhileNotClosed(b, es, i);
    PassWhileNotClosed(b, es, j);
    k := OpeningBetween(b, es, i + 1, j);
  }

  // ------------------------------------------------------------ the cooldown

  /** The event of the latest opening, -1 when there was none. */
  function LastOpening(b: Breaker, es: seq<Event>): (k: int)
    ensures -1 <= k < |es|
  {
    if es == [] then -1
    else if Run(b, es[..|es| - 1]).mode != Open && Run(b, es).mode == Open then |es| - 1
    else LastOpening(b, es[..|es| - 1])
  }

  /** `openedAt` is the time of the latest opening. */
  lemma {:induction false} OpeningIsRecorded(b: Breaker, es: seq<Event>)
    requires b.mode == Closed
    ensures Run(b, es).mode == Open ==> LastOpening(b, es) >= 0
    ensures LastOpening(b, es) >= 0 ==> Run(b, es).openedAt == es[LastOpening(b, es)].time
  {
    if es != [] { OpeningIsRecorded(b, es[..|es| - 1]); }
  }

  /** Event `m` starts a half-open episode, after the cooldown in force at that moment has
      passed since `start`. */
  predicate StartsEpisode(b: Breaker, es: seq<Event>, m: nat, start: int)
    requires m < |es|
  {
    && es[m].action == Acquire && Before(b, es, m).mode == Open && Before(b, es, m + 1).mode == HalfOpen
    && es[m].time >= start + Before(b, es, m).cooldownMs
  }

  /** A breaker that opened and is open no more has started a half-open episode since. */
  lemma {:induction false} EpisodeSinceOpening(b: Breaker, es: seq<Event>, n: nat) returns (m: nat)
    requires b.mode == Closed && n <= |es| && Before(b, es, n).mode != Open && LastOpening(b, es[..n]) >= 0
    ensures LastOpening(b, es[..n]) < m < n && StartsEpisode(b, es, m, es[LastOpening(b, es[..n])].time)
    decreases n
  {
    NextState(b, es, n - 1);
    assert es[..n][..n - 1] == es[..n - 1];
    if Before(b, es, n - 1).mode == Open {
      OpeningIsRecorded(b, es[..n - 1]);
      m := n - 1;
    } else {
      m := EpisodeSinceOpening(b, es, n - 1);
    }
  }

  /** No acquire passes sooner than the cooldown after the latest opening, in whatever mode the
      breaker is by then and however it is reconfigured meanwhile: the cooldown that counts is
      the one in force when the half-open episode began. */
  lemma CooldownIsRespected(b: Breaker, es: seq<Event>, n: nat) returns (m: nat)
    requires b.mode == Closed && !b.probeStarted && Ordered(es)
    requires n < |es| && Passes(b, es, n) && LastOpening(b, es[..n]) >= 0
    ensures LastOpening(b, es[..n]) < m <= n && StartsEpisode(b, es, m, es[LastOpening(b, es[..n])].time)
    ensures es[n].time >= es[LastOpening(b, es[..n])].time + Before(b, es, m).cooldownMs
  {
    if Before(b, es, n).mode == Open {
      OpeningIsRecorded(b, es[..n]);
      PassWhileNotClosed(b, es, n);
      m := n;
    } else {
      m := EpisodeSinceOpening(b, es, n);
    }
  }

  // ------------------------------------------------------------ the 429 log

  predicate FixedConfig(es: seq<Event>) {
    forall e :: e in es ==> !e.action.Configure?
  }

  /** Every concurrency 429 since the breaker last closed from half-open, never pruned. */
  function History(b: Breaker, es: seq<Event>): seq<int> {
    if es == [] then []
    else
      var init, e := es[..|es| - 1], es[|es| - 1];
      if e.action == Saw429(Concurrency) then History(b, init) + [e.time]
      else if e.action == Success && Run(b, init).mode == HalfOpen then []
      else History(b, init)
  }

  lemma {:induction false} RecentAppend(a: seq<int>, t: int, now: int, window: int)
    ensures Recent(a + [t], now, window) == Recent(a, now, window) + (if now - t < window then [t] else [])
  {
    assert (a + [t])[..|a|] == a;
  }

  /** Pruning early loses nothing that a later prune would keep. */
  lemma {:induction false} PruneTwice(log: seq<int>, t: int, now: int, window: int)
    requires t <= now
    ensures Recent(Recent(log, t, window), now, window) == Recent(log, now, window)
  {
    if log != [] {
      PruneTwice(log[..|log| - 1], t, now, window);
      RecentAppend(Recent(log[..|log| - 1], t, window), log[|log| - 1], now, window);
    }
  }

  lemma {:induction false} RecentIsShorter(log: seq<int>, now: int, window: int)
    ensures |Recent(log, now, window)| <= |log|
  {
    if log != [] { RecentIsShorter(log[..|log| - 1], now, window); }
  }

  lemma {:induction false} LogAgrees(b: Breaker, es: seq<Event>, now: int)
    requires Ordered(es) && FixedConfig(es) && b.concurrency429s == []
    requires es != [] ==> es[|es| - 1].time <= now
    ensures Run(b, es).windowMs == b.windowMs && Run(b, es).threshold == b.threshold
    ensures Recent(Run(b, es).concurrency429s, now, b.windowMs) == Recent(History(b, es), now, b.windowMs)
  {
    if es != [] {
      var init, e := es[..|es| - 1], es[|es| - 1];
      assert e in es;
      assert init != [] ==> init[|init| - 1] == es[|es| - 2];
      LogAgrees(b, init, now);
      if e.action == Saw429(Concurrency) {
        var log := Run(b, init).concurrency429s;
        PruneTwice(log + [e.time], e.time, now, b.windowMs);
        RecentAppend(log, e.time, now, b.windowMs);
        RecentAppend(History(b, init), e.time, now, b.windowMs);
      }
    }
  }

  /** The pruned list after each concurrency 429 is the full history since the last close,
      cut to the window; and the breaker leaves Closed exactly when that many reach the
      threshold. After a close it therefore takes `threshold` fresh concurrency 429s. */
  lemma LogAgreement(threshold: int, windowMs: int, cooldownMs: int, es: seq<Event>, n: nat)
    requires Ordered(es) && FixedConfig(es) && n < |es|
    ensures var b := Fresh(threshold, windowMs, cooldownMs);
            var seen := Recent(History(b, es[..n + 1]), es[n].time, windowMs);
            && (es[n].action == Saw429(Concurrency) ==> Before(b, es, n + 1).concurrency429s == seen)
            && (Before(b, es, n).mode == Closed ==>
                  (Before(b, es, n + 1).mode != Closed <==> es[n].action == Saw429(Concurrency) && |seen| >= threshold))
            && (Before(b, es, n).mode == Closed && Before(b, es, n + 1).mode != Closed ==>
                  Before(b, es, n + 1).mode == Open && |History(b, es[..n + 1])| >= threshold)
  {
    var b := Fresh(threshold, windowMs, cooldownMs);
    var e := es[n];
    assert e in es;
    NextState(b, es, n);
    assert n > 0 ==> es[..n][n - 1] == es[n - 1];
    LogAgrees(b, es[..n], e.time);
    ProbeIffHalfOpen(b, es[..n]);
    if e.action == Saw429(Concurrency) {
      assert es[..n + 1][..n] == es[..n];
      RecentAppend(Before(b, es, n).concurrency429s, e.time, e.time, windowMs);
      RecentAppend(History(b, es[..n]), e.time, e.time, windowMs);
    }
    RecentIsShorter(History(b, es[..n + 1]), e.time, windowMs);
  }
}
