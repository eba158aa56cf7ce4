/** Per-plane restart supervision (src/astropath/supervisor.py).

    The environment of `supervise` (how long each incarnation of the plane runs and how it
    ends, how much longer than asked a sleep takes, the random jitter) is a script given in
    advance; the clock starts at `start` and advances only by what the script says. */
module Supervisor {
  import opened SlidingWindow

  datatype Config = Config(maxRestarts: int, window: real, baseBackoff: real, maxBackoff: real)

  const DEFAULTS := Config(5, 60.0, 0.5, 30.0)

  /** `allow` on the deque as a value: the verdict and the new deque. */
  function Allow(cfg: Config, events: seq<real>, now: real): (bool, seq<real>) {
    var kept := DropOld(events, now - cfg.window);
    if |kept| >= cfg.maxRestarts then (false, kept) else (true, kept + [now])
  }

  /** The deterministic part of the backoff after `count` recent restarts. */
  function BackoffDelay(cfg: Config, count: nat): real {
    MinReal(cfg.maxBackoff, Doubled(cfg.baseBackoff, if count <= 1 then 0 else count - 1))
  }

  /** What the delay before restart number `n` of a window should be: base * 2^(n-1), up to the cap. */
  predicate IsBackoff(cfg: Config, n: nat, delay: real)
    requires n >= 1
  {
    && delay <= cfg.maxBackoff
    && (Doubled(cfg.baseBackoff, n - 1) <= cfg.maxBackoff ==> delay == Doubled(cfg.baseBackoff, n - 1))
    && (Doubled(cfg.baseBackoff, n - 1) >= cfg.maxBackoff ==> delay == cfg.maxBackoff)
  }

  class RestartLimiter {
    const cfg: Config
    var events: seq<real>

    constructor (cfg: Config)
      ensures this.cfg == cfg && events == []
    {
      this.cfg := cfg;
      events := [];
    }

    method TryRestart(now: real) returns (allowed: bool)
      modifies this
      ensures (allowed, events) == Allow(cfg, old(events), now)
    {
      events := Prune(events, now - cfg.window);
      if |events| >= cfg.maxRestarts {
        return false;
      }
      events := events + [now];
      return true;
    }

    /** `jitter` is the draw from [0, base_backoff]. */
    method Backoff(jitter: real) returns (delay: real)
      ensures delay == BackoffDelay(cfg, |events|) + jitter
      ensures IsBackoff(cfg, if |events| < 1 then 1 else |events|, delay - jitter)
    {
      var count := if |events| < 1 then 1 else |events|;
      delay := MinReal(cfg.maxBackoff, Doubled(cfg.baseBackoff, count - 1));
      delay := delay + jitter;
    }
  }

  // ---------------------------------------------------------------- the limiter is exact

  datatype Log = Log(events: seq<real>, grants: seq<real>, now: real)

  function Ask(cfg: Config, l: Log, now: real): Log {
    var (ok, events) := Allow(cfg, l.events, now);
    Log(events, if ok then l.grants + [now] else l.grants, now)
  }

  /** Calls of `allow` at the given times; `grants` is every time it said yes. */
  function Asked(cfg: Config, times: seq<real>): Log {
    if times == [] then Log([], [], 0.0) else Ask(cfg, Asked(cfg, times[..|times| - 1]), times[|times| - 1])
  }

  /** If the grants `a..b` fit in one window, there are at most max of them. */
  ghost predicate Uncrowded(cfg: Config, h: seq<real>, a: int, b: int)
    requires 0 <= a <= b < |h|
  {
    h[b] < h[a] + cfg.window ==> b + 1 - a <= cfg.maxRestarts
  }

  ghost predicate NeverCrowded(cfg: Config, h: seq<real>) {
    forall a, b :: 0 <= a <= b < |h| ==> Uncrowded(cfg, h, a, b)
  }

  ghost predicate LogInvariant(cfg: Config, l: Log) {
    && Ascending(l.grants)
    && (l.grants == [] ==> l.events == [])
    && (l.grants != [] ==> l.grants[|l.grants| - 1] <= l.now)
    && (forall c :: l.now - cfg.window <= c ==> DropOld(l.events, c) == Recent(l.grants, c))
    && NeverCrowded(cfg, l.grants)
  }

  lemma NeverCrowdedAppend(cfg: Config, h: seq<real>, now: real)
    requires NeverCrowded(cfg, h) && Ascending(h + [now])
    requires |Recent(h, now - cfg.window)| < cfg.maxRestarts
    ensures NeverCrowded(cfg, h + [now])
  {
    var h' := h + [now];
    AscendingPrefix(h', |h|);
    assert h'[..|h|] == h;
    var n := RecentIsSuffix(h, now - cfg.window);
    forall a, b | 0 <= a <= b < |h'| ensures Uncrowded(cfg, h', a, b) {
      if b < |h| {
        assert Uncrowded(cfg, h, a, b);
      } else if a < |h| && h'[b] < h'[a] + cfg.window {
        assert n <= a;
      }
    }
  }

  lemma AskRefines(cfg: Config, l: Log, now: real, c: real)
    requires LogInvariant(cfg, l) && (l.grants == [] || l.now <= now) && now - cfg.window <= c
    ensures DropOld(Ask(cfg, l, now).events, c) == Recent(Ask(cfg, l, now).grants, c)
  {
    var cutoff := now - cfg.window;
    AscendingAppend(l.grants, now);
    PruneTwice(l.grants, cutoff, c);
    PruneRefinesHistory(l.grants, cutoff, now, c);
  }

  lemma AskKeepsInvariant(cfg: Config, l: Log, now: real)
    requires LogInvariant(cfg, l) && (l.grants == [] || l.now <= now)
    ensures LogInvariant(cfg, Ask(cfg, l, now))
    ensures Allow(cfg, l.events, now).0 <==> |Recent(l.grants, now - cfg.window)| < cfg.maxRestarts
  {
    var l' := Ask(cfg, l, now);
    forall c | l'.now - cfg.window <= c ensures DropOld(l'.events, c) == Recent(l'.grants, c) {
      AskRefines(cfg, l, now, c);
    }
    assert DropOld(l.events, now - cfg.window) == Recent(l.grants, now - cfg.window);
    if Allow(cfg, l.events, now).0 {
      AscendingAppend(l.grants, now);
      NeverCrowdedAppend(cfg, l.grants, now);
    }
  }

  lemma {:induction false} AskedInvariant(cfg: Config, times: seq<real>)
    requires Ascending(times)
    ensures LogInvariant(cfg, Asked(cfg, times))
    ensures times != [] ==> Asked(cfg, times).now == times[|times| - 1]
  {
    if times != [] {
      var before := times[..|times| - 1];
      AscendingPrefix(times, |times| - 1);
      if before != [] { assert Ordered(times, |times| - 2, |times| - 1); }
      AskedInvariant(cfg, before);
      AskKeepsInvariant(cfg, Asked(cfg, before), times[|times| - 1]);
    }
  }

  /** A request is refused exactly when the window that ends with it already holds `max` grants. */
  lemma RefusesExactlyWhenFull(cfg: Config, times: seq<real>, now: real)
    requires Ascending(times + [now])
    ensures Allow(cfg, Asked(cfg, times).events, now).0 <==>
              |Recent(Asked(cfg, times).grants, now - cfg.window)| < cfg.maxRestarts
  {
    AscendingPrefix(times + [now], |times|);
    assert (times + [now])[..|times|] == times;
    if times != [] { assert Ordered(times + [now], |times| - 1, |times|); }
    AskedInvariant(cfg, times);
    AskKeepsInvariant(cfg, Asked(cfg, times), now);
  }

  lemma UncrowdedWindow(cfg: Config, h: seq<real>, t: real)
    requires Ascending(h) && NeverCrowded(cfg, h)
    ensures InWindow(h, t - cfg.window, t) == [] || |InWindow(h, t - cfg.window, t)| <= cfg.maxRestarts
  {
    var a, b := WindowIsStretch(h, t - cfg.window, t);
    if a < b { assert Uncrowded(cfg, h, a, b - 1); }
  }

  /** However often and whenever it is asked, no window ever holds more than
      `max` grants. */
  lemma {:induction false} NoWindowExceedsMax(cfg: Config, times: seq<real>, t: real)
    requires Ascending(times)
    ensures |InWindow(Asked(cfg, times).grants, t - cfg.window, t)|
              <= (if cfg.maxRestarts < 0 then 0 else cfg.maxRestarts)
  {
    AskedInvariant(cfg, times);
    UncrowdedWindow(cfg, Asked(cfg, times).grants, t);
    AskedKeepsFew(cfg, times);
  }

  // ---------------------------------------------------------------- the supervision loop

  datatype Ending = Crashed | Finished | Cancelled

  /** One incarnation of the plane and the sleep that follows a permitted restart.
      `stopped` says whether someone else sets the shutdown event during that sleep. */
  datatype Incarnation = Incarnation(runTime: real, ending: Ending, jitter: real, overshoot: real, stopped: bool)

  datatype Status = Running | Done | Aborted | GaveUp | StoppedByOther

  datatype Plane = Plane(
    status: Status, restarts: nat, unhealthy: bool, shutdown: bool,
    events: seq<real>, now: real, crashes: seq<real>)

  function Incarnate(cfg: Config, p: Plane, inc: Incarnation): Plane {
    if p.status != Running then p
    else
      var t := p.now + inc.runTime;
      match inc.ending
      case Finished => p.(status := Done, now := t)
      case Cancelled => p.(status := Aborted, now := t)
      case Crashed =>
        var (ok, events) := Allow(cfg, p.events, t);
        var q := p.(restarts := p.restarts + 1, crashes := p.crashes + [t], events := events);
        if !ok then q.(status := GaveUp, unhealthy := true, shutdown := true, now := t)
        else
          q.(now := t + BackoffDelay(cfg, |events|) + inc.jitter + inc.overshoot,
             status := if inc.stopped then StoppedByOther else Running,
             shutdown := inc.stopped)
  }

  /** The plane after the environment has played `script`, from a clear shutdown event. */
  function Supervised(cfg: Config, start: real, script: seq<Incarnation>): Plane {
    if script == [] then Plane(Running, 0, false, false, [], start, [])
    else Incarnate(cfg, Supervised(cfg, start, script[..|script| - 1]), script[|script| - 1])
  }

  lemma {:induction false} EndedStaysEnded(cfg: Config, start: real, script: seq<Incarnation>, n: nat)
    requires n <= |script| && Supervised(cfg, start, script[..n]).status != Running
    ensures Supervised(cfg, start, script) == Supervised(cfg, start, script[..n])
  {
    if n < |script| {
      var before := script[..|script| - 1];
      assert before[..n] == script[..n];
      EndedStaysEnded(cfg, start, before, n);
    } else {
      assert script[..n] == script;
    }
  }

  /** The loop itself: one incarnation per turn while the shutdown event is clear. */
  method Supervise(limiter: RestartLimiter, start: real, script: seq<Incarnation>)
    returns (status: Status, restarts: nat, unhealthy: bool, shutdown: bool, now: real)
    requires limiter.events == []
    modifies limiter
    ensures var p := Supervised(limiter.cfg, start, script);
            status == p.status && restarts == p.restarts && unhealthy == p.unhealthy &&
            shutdown == p.shutdown && now == p.now && limiter.events == p.events
  {
    status, restarts, unhealthy, shutdown, now := Running, 0, false, false, start;
    var i := 0;
    assert script[..0] == [];
    while !shutdown && i < |script|
      invariant i <= |script|
      invariant var p := Supervised(limiter.cfg, start, script[..i]);
                status == p.status && restarts == p.restarts && unhealthy == p.unhealthy &&
                shutdown == p.shutdown && now == p.now && limiter.events == p.events
      invariant status == (if shutdown then StoppedByOther else Running)
    {
      var inc := script[i];
      i := i + 1;
      assert script[..i][..i - 1] == script[..i - 1];
      now := now + inc.runTime;
      match inc.ending {
        case Finished =>
          status := Done;
          EndedStaysEnded(limiter.cfg, start, script, i);
          return;
        case Cancelled =>
          status := Aborted;
          EndedStaysEnded(limiter.cfg, start, script, i);
          return;
        case Crashed =>
          restarts := restarts + 1;
          var allowed := limiter.TryRestart(now);
          if !allowed {
            status, unhealthy, shutdown := GaveUp, true, true;
            EndedStaysEnded(limiter.cfg, start, script, i);
            return;
          }
          var delay := limiter.Backoff(inc.jitter);
          now := now + delay + inc.overshoot;
          shutdown := inc.stopped;
          if shutdown { status := StoppedByOther; }
      }
    }
    EndedOrWhole(limiter.cfg, start, script, i);
  }

  lemma EndedOrWhole(cfg: Config, start: real, script: seq<Incarnation>, n: nat)
    requires n <= |script|
    requires n == |script| || Supervised(cfg, start, script[..n]).status != Running
    ensures Supervised(cfg, start, script) == Supervised(cfg, start, script[..n])
  {
    if n < |script| { EndedStaysEnded(cfg, start, script, n); } else { assert script[..n] == script; }
  }

  // ---------------------------------------------------------------- when it gives up

  /** Run times and sleep overshoots are durations, jitter is a draw from [0, base]. */
  ghost predicate Physical(cfg: Config, script: seq<Incarnation>) {
    && cfg.baseBackoff >= 0.0 && cfg.maxBackoff >= 0.0
    && forall i :: 0 <= i < |script| ==>
         script[i].runTime >= 0.0 && script[i].overshoot >= 0.0 && 0.0 <= script[i].jitter <= cfg.baseBackoff
  }

  /** The supervisor asks the limiter once per crash, and gives up when an answer is no. */
  ghost predicate AsksPerCrash(cfg: Config, p: Plane) {
    && p.restarts == |p.crashes|
    && p.events == Asked(cfg, p.crashes).events
    && Ascending(p.crashes)
    && (p.crashes != [] ==> p.crashes[|p.crashes| - 1] <= p.now)
    && (p.status == GaveUp <==> p.unhealthy)
    && (p.status == Running ==> !p.shutdown)
    && (p.status == GaveUp ==> p.shutdown)
    && if p.status == GaveUp then Refused(cfg, p.crashes) else Asked(cfg, p.crashes).grants == p.crashes
  }

  /** All but the last request were granted, and the last was not. */
  ghost predicate Refused(cfg: Config, crashes: seq<real>) {
    crashes != [] &&
    var before := crashes[..|crashes| - 1];
    Asked(cfg, before).grants == before && !Allow(cfg, Asked(cfg, before).events, crashes[|crashes| - 1]).0
  }

  lemma IncarnateKeeps(cfg: Config, p: Plane, inc: Incarnation)
    requires AsksPerCrash(cfg, p)
    requires cfg.baseBackoff >= 0.0 && cfg.maxBackoff >= 0.0
    requires inc.runTime >= 0.0 && inc.overshoot >= 0.0 && inc.jitter >= 0.0
    ensures AsksPerCrash(cfg, Incarnate(cfg, p, inc))
  {
    if p.status == Running && inc.ending == Crashed {
      var t := p.now + inc.runTime;
      var crashes := p.crashes + [t];
      assert crashes[..|p.crashes|] == p.crashes;
      AscendingAppend(p.crashes, t);
      assert Asked(cfg, crashes) == Ask(cfg, Asked(cfg, p.crashes), t);
    }
  }

  lemma {:induction false} SupervisorAsksPerCrash(cfg: Config, start: real, script: seq<Incarnation>)
    requires Physical(cfg, script)
    ensures AsksPerCrash(cfg, Supervised(cfg, start, script))
  {
    if script != [] {
      var n := |script| - 1;
      assert Physical(cfg, script[..n]);
      SupervisorAsksPerCrash(cfg, start, script[..n]);
      IncarnateKeeps(cfg, Supervised(cfg, start, script[..n]), script[n]);
    }
  }

  /** Everything but backoff between the first crash and crash `n`, counting from 0. */
  function Overhead(script: seq<Incarnation>, n: nat): real
    requires n < |script| || n == 0
  {
    if n == 0 then 0.0 else Overhead(script, n - 1) + script[n - 1].overshoot + script[n].runTime
  }

  ghost predicate AlwaysCrashes(script: seq<Incarnation>) {
    forall i :: 0 <= i < |script| ==> script[i].ending == Crashed && !script[i].stopped
  }

  /** The `n` backoffs of a crash loop at their longest: base * 2^(i-1) and full jitter each. */
  function LongestBackoffs(base: real, n: nat): real {
    if n == 0 then 0.0 else LongestBackoffs(base, n - 1) + Doubled(base, n - 1) + base
  }

  lemma {:induction false} LongestBackoffsClosedForm(base: real, n: nat)
    ensures LongestBackoffs(base, n) == Doubled(base, n) - base + Repeated(n, base)
  {
    if n > 0 {
      LongestBackoffsClosedForm(base, n - 1);
    }
  }

  /** With fewer than max grants in the deque a crash is forgiven, after a bounded sleep. */
  lemma EarlyRestart(cfg: Config, p: Plane, inc: Incarnation, n: nat)
    requires p.status == Running && |p.events| < n <= cfg.maxRestarts
    requires cfg.baseBackoff >= 0.0
    requires inc.jitter <= cfg.baseBackoff && inc.ending == Crashed && !inc.stopped
    ensures var q := Incarnate(cfg, p, inc);
            && q.status == Running
            && q.crashes == p.crashes + [p.now + inc.runTime]
            && q.now <= p.now + inc.runTime + Doubled(cfg.baseBackoff, n - 1) + cfg.baseBackoff + inc.overshoot
  {
    var t := p.now + inc.runTime;
    DropOldShrinks(p.events, t - cfg.window);
    var count := |Allow(cfg, p.events, t).1|;
    DoubledMonotone(cfg.baseBackoff, if count <= 1 then 0 else count - 1, n - 1);
  }

  /** In a crash loop the first `n <= max` crashes are all forgiven, and quickly. */
  ghost predicate Looping(cfg: Config, script: seq<Incarnation>, n: nat, p: Plane)
    requires n <= |script|
  {
    && AsksPerCrash(cfg, p) && p.status == Running && |p.crashes| == n
    && (n > 0 ==> p.now <= p.crashes[0] + LongestBackoffs(cfg.baseBackoff, n)
                           + Overhead(script, n - 1) + script[n - 1].overshoot)
  }

  lemma {:induction false} CrashesComeQuickly(cfg: Config, start: real, script: seq<Incarnation>, n: nat)
    requires Physical(cfg, script) && AlwaysCrashes(script)
    requires n <= |script| && n <= cfg.maxRestarts
    ensures Looping(cfg, script, n, Supervised(cfg, start, script[..n]))
  {
    if n == 0 {
      assert script[..0] == [];
    } else {
      assert script[..n][..n - 1] == script[..n - 1];
      CrashesComeQuickly(cfg, start, script, n - 1);
      var p, inc := Supervised(cfg, start, script[..n - 1]), script[n - 1];
      IncarnateKeeps(cfg, p, inc);
      AskedKeepsFew(cfg, p.crashes);
      EarlyRestart(cfg, p, inc, n);
    }
  }

  lemma {:induction false} AskedKeepsFew(cfg: Config, times: seq<real>)
    ensures |Asked(cfg, times).events| <= |times| && |Asked(cfg, times).grants| <= |times|
  {
    if times != [] {
      AskedKeepsFew(cfg, times[..|times| - 1]);
      DropOldShrinks(Asked(cfg, times[..|times| - 1]).events, times[|times| - 1] - cfg.window);
    }
  }

  lemma DropOldShrinks(events: seq<real>, cutoff: real)
    ensures |DropOld(events, cutoff)| <= |events|
  {
  }

  /** When all grants so far lie in the window that ends at `t`, a full budget is refused. */
  lemma FullWindowIsRefused(cfg: Config, crashes: seq<real>, t: real)
    requires Ascending(crashes + [t]) && Asked(cfg, crashes).grants == crashes
    requires crashes != [] ==> t < crashes[0] + cfg.window
    requires |crashes| >= cfg.maxRestarts
    ensures !Allow(cfg, Asked(cfg, crashes).events, t).0
  {
    AscendingPrefix(crashes + [t], |crashes|);
    assert (crashes + [t])[..|crashes|] == crashes;
    assert Recent(crashes, t - cfg.window) == crashes by { AllRecent(crashes, t - cfg.window); }
    RefusesExactlyWhenFull(cfg, crashes, t);
  }

  /** Nothing of a looping plane's history has left the window when crash max+1 comes. */
  lemma LoopFitsInWindow(cfg: Config, script: seq<Incarnation>, p: Plane)
    requires 0 < cfg.maxRestarts < |script|
    requires Looping(cfg, script, cfg.maxRestarts, p)
    requires LongestBackoffs(cfg.baseBackoff, cfg.maxRestarts) + Overhead(script, cfg.maxRestarts) < cfg.window
    ensures p.now + script[cfg.maxRestarts].runTime < p.crashes[0] + cfg.window
  {
  }

  lemma FullWindowAtCrash(cfg: Config, p: Plane, inc: Incarnation)
    requires AsksPerCrash(cfg, p) && p.status == Running && |p.crashes| >= cfg.maxRestarts
    requires inc.ending == Crashed && inc.runTime >= 0.0
    requires p.crashes != [] ==> p.now + inc.runTime < p.crashes[0] + cfg.window
    ensures var q := Incarnate(cfg, p, inc);
            q.status == GaveUp && q.restarts == |p.crashes| + 1 && q.unhealthy && q.shutdown
  {
    AscendingAppend(p.crashes, p.now + inc.runTime);
    FullWindowIsRefused(cfg, p.crashes, p.now + inc.runTime);
  }

  lemma LoopEndsAtMaxPlusOne(cfg: Config, start: real, script: seq<Incarnation>)
    requires Physical(cfg, script) && AlwaysCrashes(script)
    requires 0 <= cfg.maxRestarts < |script|
    requires LongestBackoffs(cfg.baseBackoff, cfg.maxRestarts) + Overhead(script, cfg.maxRestarts) < cfg.window
    ensures var p := Supervised(cfg, start, script[..cfg.maxRestarts + 1]);
            p.status == GaveUp && p.restarts == cfg.maxRestarts + 1 && p.unhealthy && p.shutdown
  {
    var m := cfg.maxRestarts;
    assert script[..m + 1][..m] == script[..m];
    CrashesComeQuickly(cfg, start, script, m);
    var p := Supervised(cfg, start, script[..m]);
    if m > 0 { LoopFitsInWindow(cfg, script, p); }
    FullWindowAtCrash(cfg, p, script[m]);
  }

  lemma LoopEndsForGood(cfg: Config, start: real, script: seq<Incarnation>, n: nat)
    requires Physical(cfg, script) && AlwaysCrashes(script)
    requires 0 <= cfg.maxRestarts < n <= |script|
    requires LongestBackoffs(cfg.baseBackoff, cfg.maxRestarts) + Overhead(script, cfg.maxRestarts) < cfg.window
    ensures var p := Supervised(cfg, start, script[..n]);
            p.status == GaveUp && p.restarts == cfg.maxRestarts + 1 && p.unhealthy && p.shutdown
  {
    LoopEndsAtMaxPlusOne(cfg, start, script);
    assert script[..n][..cfg.maxRestarts + 1] == script[..cfg.maxRestarts + 1];
    EndedStaysEnded(cfg, start, script[..n], cfg.maxRestarts + 1);
  }

  /** A plane that keeps crashing quickly is given up at crash max+1, not before
      and not later: unhealthy and shutdown are set and max+1 restarts have been counted. */
  lemma GivesUpAtCrashMaxPlusOne(cfg: Config, start: real, script: seq<Incarnation>, n: nat)
    requires Physical(cfg, script) && AlwaysCrashes(script)
    requires 0 <= cfg.maxRestarts < |script| && n <= |script|
    requires Doubled(cfg.baseBackoff, cfg.maxRestarts) - cfg.baseBackoff + Repeated(cfg.maxRestarts, cfg.baseBackoff)
             + Overhead(script, cfg.maxRestarts) < cfg.window
    ensures var p := Supervised(cfg, start, script[..n]);
            && (n <= cfg.maxRestarts ==> p.status == Running && p.restarts == n && !p.unhealthy && !p.shutdown)
            && (n > cfg.maxRestarts ==>
                  p.status == GaveUp && p.restarts == cfg.maxRestarts + 1 && p.unhealthy && p.shutdown)
  {
    var m := cfg.maxRestarts;
    if n <= m {
      CrashesComeQuickly(cfg, start, script, n);
    } else {
      LongestBackoffsClosedForm(cfg.baseBackoff, m);
      LoopEndsForGood(cfg, start, script, n);
    }
  }

  // ---------------------------------------------------------------- how long it waits

  /** A forgiven crash is followed by the backoff for the restarts of the window that ends with
      it, plus the jitter and whatever the sleep overshot. */
  lemma ForgivenCrashWaits(cfg: Config, p: Plane, inc: Incarnation)
    requires AsksPerCrash(cfg, p) && p.status == Running && inc.ending == Crashed
    requires inc.runTime >= 0.0 && Allow(cfg, p.events, p.now + inc.runTime).0
    ensures var q, t := Incarnate(cfg, p, inc), p.now + inc.runTime;
            var n := |Recent(p.crashes, t - cfg.window)| + 1;
            && q.crashes == p.crashes + [t]
            && IsBackoff(cfg, n, q.now - t - inc.jitter - inc.overshoot)
  {
    var t := p.now + inc.runTime;
    AscendingAppend(p.crashes, t);
    AskedInvariantAt(cfg, p.crashes, t);
  }

  lemma AskedInvariantAt(cfg: Config, times: seq<real>, now: real)
    requires Ascending(times + [now])
    ensures DropOld(Asked(cfg, times).events, now - cfg.window) == Recent(Asked(cfg, times).grants, now - cfg.window)
  {
    AscendingPrefix(times + [now], |times|);
    assert (times + [now])[..|times|] == times;
    if times != [] { assert Ordered(times + [now], |times| - 1, |times|); }
    AskedInvariant(cfg, times);
  }

  ghost predicate ClimbsAt(cfg: Config, crashes: seq<real>, i: nat)
    requires i < |crashes|
  {
    crashes[i] >= crashes[0] + Doubled(cfg.baseBackoff, i) - cfg.baseBackoff
  }

  ghost predicate Climbs(cfg: Config, crashes: seq<real>) {
    forall i: nat :: i < |crashes| ==> ClimbsAt(cfg, crashes, i)
  }

  /** Where a crash loop stands: its crashes climb, and the next comes no earlier than `now`. */
  ghost predicate Climbing(cfg: Config, p: Plane) {
    && Climbs(cfg, p.crashes)
    && (p.status == Running && p.crashes != [] ==>
          p.now >= p.crashes[0] + Doubled(cfg.baseBackoff, |p.crashes|) - cfg.baseBackoff)
  }

  lemma ClimbsAppend(cfg: Config, crashes: seq<real>, t: real)
    requires Climbs(cfg, crashes)
    requires crashes != [] ==> t >= crashes[0] + Doubled(cfg.baseBackoff, |crashes|) - cfg.baseBackoff
    ensures Climbs(cfg, crashes + [t])
  {
    forall i: nat | i < |crashes + [t]| ensures ClimbsAt(cfg, crashes + [t], i) {
      if i < |crashes| { assert ClimbsAt(cfg, crashes, i); }
    }
  }

  lemma CrashIsLogged(cfg: Config, p: Plane, inc: Incarnation)
    ensures Incarnate(cfg, p, inc).crashes ==
              if p.status == Running && inc.ending == Crashed then p.crashes + [p.now + inc.runTime] else p.crashes
    ensures Incarnate(cfg, p, inc).status == Running && p.status == Running && inc.ending == Crashed ==>
              Allow(cfg, p.events, p.now + inc.runTime).0
  {
  }

  /** In one window, below the cap, the wait after the crash doubles the distance from the first. */
  lemma WaitClimbs(cfg: Config, p: Plane, inc: Incarnation)
    requires AsksPerCrash(cfg, p) && p.status == Running && inc.ending == Crashed
    requires Allow(cfg, p.events, p.now + inc.runTime).0
    requires inc.runTime >= 0.0 && inc.overshoot >= 0.0 && inc.jitter >= 0.0
    requires Doubled(cfg.baseBackoff, |p.crashes|) <= cfg.maxBackoff
    requires p.crashes != [] ==> p.now + inc.runTime < p.crashes[0] + cfg.window
    ensures Incarnate(cfg, p, inc).now >= p.now + inc.runTime + Doubled(cfg.baseBackoff, |p.crashes|)
  {
    AllRecent(p.crashes, p.now + inc.runTime - cfg.window);
    ForgivenCrashWaits(cfg, p, inc);
  }

  lemma ClimbOne(cfg: Config, p: Plane, inc: Incarnation)
    requires AsksPerCrash(cfg, p) && p.status == Running && Climbing(cfg, p)
    requires Doubled(cfg.baseBackoff, |p.crashes|) <= cfg.maxBackoff
    requires inc.ending == Crashed && inc.runTime >= 0.0 && inc.overshoot >= 0.0 && inc.jitter >= 0.0
    requires p.crashes != [] ==> p.now + inc.runTime < p.crashes[0] + cfg.window
    ensures Climbing(cfg, Incarnate(cfg, p, inc))
  {
    var t := p.now + inc.runTime;
    CrashIsLogged(cfg, p, inc);
    ClimbsAppend(cfg, p.crashes, t);
    if Incarnate(cfg, p, inc).status == Running { WaitClimbs(cfg, p, inc); }
  }

  lemma {:induction false} NoMoreCrashesThanTurns(cfg: Config, start: real, script: seq<Incarnation>)
    ensures |Supervised(cfg, start, script).crashes| <= |script|
  {
    if script != [] {
      NoMoreCrashesThanTurns(cfg, start, script[..|script| - 1]);
      CrashIsLogged(cfg, Supervised(cfg, start, script[..|script| - 1]), script[|script| - 1]);
    }
  }

  ghost predicate WithinOneWindow(cfg: Config, crashes: seq<real>) {
    crashes != [] ==> crashes[|crashes| - 1] < crashes[0] + cfg.window
  }

  /** With the shipped settings the five restarts of a window wait 0.5, 1, 2, 4 and 8 seconds, and
      the cap would be reached at 30. */
  lemma DefaultBackoffs(n: nat, delay: real)
    requires 1 <= n && IsBackoff(DEFAULTS, n, delay)
    ensures n == 1 ==> delay == 0.5
    ensures n == 2 ==> delay == 1.0
    ensures n == 3 ==> delay == 2.0
    ensures n == 4 ==> delay == 4.0
    ensures n == 5 ==> delay == 8.0
    ensures n == 6 ==> delay == 16.0
    ensures n >= 7 ==> delay == 30.0
  {
    assert Doubled(0.5, 2) == 2.0 && Doubled(0.5, 4) == 4.0 * Doubled(0.5, 2);
    assert Doubled(0.5, 6) == 4.0 * Doubled(0.5, 4);
    if n >= 7 { DoubledMonotone(0.5, 6, n - 1); }
  }

  /** While every turn of the loop is a crash, all in one window and below the cap, crash `i`
      (from 0) comes no earlier than base * (2^i - 1) after the first. */
  lemma {:induction false} CrashesSpreadOut(cfg: Config, start: real, script: seq<Incarnation>)
    requires Physical(cfg, script) && AlwaysCrashes(script)
    requires var crashes := Supervised(cfg, start, script).crashes;
             |crashes| == |script| && WithinOneWindow(cfg, crashes)
    requires script != [] ==> Doubled(cfg.baseBackoff, |script| - 1) <= cfg.maxBackoff
    ensures Climbing(cfg, Supervised(cfg, start, script))
  {
    if script != [] {
      var n := |script| - 1;
      var before, inc := script[..n], script[n];
      var p := Supervised(cfg, start, before);
      assert Physical(cfg, before) && AlwaysCrashes(before);
      SupervisorAsksPerCrash(cfg, start, before);
      NoMoreCrashesThanTurns(cfg, start, before);
      CrashIsLogged(cfg, p, inc);
      if n > 0 {
        DoubledMonotone(cfg.baseBackoff, n - 1, n);
        LastInWindow(cfg, p, inc);
      }
      CrashesSpreadOut(cfg, start, before);
      ClimbOne(cfg, p, inc);
    }
  }

  lemma LastInWindow(cfg: Config, p: Plane, inc: Incarnation)
    requires AsksPerCrash(cfg, p) && p.crashes != [] && inc.runTime >= 0.0
    requires WithinOneWindow(cfg, p.crashes + [p.now + inc.runTime])
    ensures WithinOneWindow(cfg, p.crashes) && p.now + inc.runTime < p.crashes[0] + cfg.window
  {
  }

  // ---------------------------------------------------------------- clean ends

  /** A plane that ends without a crash while it is supervised is done: nothing more is counted,
      marked or restarted, however the script would go on. */
  lemma CleanEndIsFinal(cfg: Config, start: real, script: seq<Incarnation>, n: nat)
    requires n < |script| && Supervised(cfg, start, script[..n]).status == Running && script[n].ending != Crashed
    ensures var p, q := Supervised(cfg, start, script[..n]), Supervised(cfg, start, script);
            && q.status == (if script[n].ending == Finished then Done else Aborted)
            && q.restarts == p.restarts && q.crashes == p.crashes && q.events == p.events
            && q.unhealthy == p.unhealthy && q.shutdown == p.shutdown && q.now == p.now + script[n].runTime
  {
    assert script[..n + 1][..n] == script[..n];
    EndedStaysEnded(cfg, start, script, n + 1);
  }

  /** A shutdown that someone else asks for ends the supervision after the sleep, healthy. */
  lemma OthersShutdownEnds(cfg: Config, start: real, script: seq<Incarnation>, n: nat)
    requires n < |script| && Supervised(cfg, start, script[..n]).status == Running
    requires script[n].ending == Crashed && script[n].stopped
    ensures var p, q := Supervised(cfg, start, script[..n]), Supervised(cfg, start, script);
            && q.shutdown && q.restarts == p.restarts + 1 && (q.status == StoppedByOther || q.status == GaveUp)
            && (q.status == StoppedByOther ==> q.unhealthy == p.unhealthy)
  {
    assert script[..n + 1][..n] == script[..n];
    EndedStaysEnded(cfg, start, script, n + 1);
  }

  /** With the shipped settings, a plane that spends less than 42 seconds outside its backoffs over
      six crashes is given up at the sixth, and runs until then. */
  lemma DefaultsGiveUpAtCrashSix(start: real, script: seq<Incarnation>, n: nat)
    requires Physical(DEFAULTS, script) && AlwaysCrashes(script)
    requires 6 <= |script| && n <= |script| && Overhead(script, 5) < 42.0
    ensures var p := Supervised(DEFAULTS, start, script[..n]);
            if n < 6 then p.status == Running && p.restarts == n && !p.unhealthy && !p.shutdown
            else p.status == GaveUp && p.restarts == 6 && p.unhealthy && p.shutdown
  {
    assert Doubled(0.5, 3) == 4.0 && Doubled(0.5, 5) == 4.0 * Doubled(0.5, 3);
    RepeatedIsProduct(5, 0.5);
    GivesUpAtCrashMaxPlusOne(DEFAULTS, start, script, n);
  }

  /** Consecutive crashes are at least window/max apart. */
  ghost predicate Rare(cfg: Config, h: seq<real>)
    requires cfg.maxRestarts >= 1
  {
    forall i :: 0 < i < |h| ==> FarApart(cfg, h, i)
  }

  ghost predicate FarApart(cfg: Config, h: seq<real>, i: int)
    requires 0 < i < |h| && cfg.maxRestarts >= 1
  {
    h[i] - h[i - 1] >= cfg.window / cfg.maxRestarts as real
  }

  lemma {:induction false} GapsAdd(cfg: Config, h: seq<real>, a: nat, b: nat)
    requires a <= b < |h| && cfg.maxRestarts >= 1 && Rare(cfg, h)
    ensures h[b] - h[a] >= Repeated(b - a, cfg.window / cfg.maxRestarts as real)
  {
    if a < b {
      GapsAdd(cfg, h, a, b - 1);
      assert FarApart(cfg, h, b);
    }
  }

  /** Any `max` gaps in a row fill a window. */
  lemma GapsFillWindow(cfg: Config, h: seq<real>, a: nat, b: nat)
    requires a <= b < |h| && b - a >= cfg.maxRestarts >= 1
    requires Ascending(h) && Rare(cfg, h)
    ensures h[b] >= h[a] + cfg.window
  {
    assert Ordered(h, a, b);
    if cfg.window >= 0.0 {
      var gap := cfg.window / cfg.maxRestarts as real;
      GapsAdd(cfg, h, a, b);
      RepeatedGrows(cfg.maxRestarts, b - a, gap);
      RepeatedIsProduct(cfg.maxRestarts, gap);
    }
  }

  /** A request whose distance to the granted ones adds up is not refused. */
  lemma SpacedOutIsGranted(cfg: Config, h: seq<real>)
    requires cfg.maxRestarts >= 1 && Ascending(h) && Rare(cfg, h)
    ensures !Refused(cfg, h)
  {
    if h != [] {
      var m := |h| - 1;
      var before, t := h[..m], h[m];
      assert before + [t] == h;
      AscendingPrefix(h, m);
      RefusesExactlyWhenFull(cfg, before, t);
      var n := RecentIsSuffix(before, t - cfg.window);
      if m - n >= cfg.maxRestarts { GapsFillWindow(cfg, h, n, m); }
    }
  }

  /** A plane whose crashes are always at least window/max apart is
      restarted for ever. */
  lemma NeverGivesUpOnRareCrashes(cfg: Config, start: real, script: seq<Incarnation>)
    requires Physical(cfg, script) && cfg.maxRestarts >= 1
    requires Rare(cfg, Supervised(cfg, start, script).crashes)
    ensures Supervised(cfg, start, script).status != GaveUp
  {
    SupervisorAsksPerCrash(cfg, start, script);
    SpacedOutIsGranted(cfg, Supervised(cfg, start, script).crashes);
  }
}
