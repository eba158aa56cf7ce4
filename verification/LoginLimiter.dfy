/** In-process login rate limiting (src/astropath/api/ratelimit.py) and the
    check-then-record discipline of the login route (src/astropath/api/routes_auth.py).

    The limiter object is the class `LoginRateLimiter`; its methods are proved against the
    functions over the value `Limiter`, and the quantitative results are about runs of those
    functions.  The clock is an argument of each call. */
module LoginLimiter {
  import opened SlidingWindow

  datatype Config = Config(
    maxAttempts: int,
    window: real,
    baseLockout: real,
    maxLockout: real,
    globalMax: int)

  const DEFAULTS := Config(5, 300.0, 60.0, 3600.0, 20)

  datatype Limiter = Limiter(
    failures: map<string, seq<real>>,
    lockedUntil: map<string, real>,
    globalEvents: seq<real>,
    globalLockedUntil: real)

  const FRESH := Limiter(map[], map[], [], 0.0)

  function Get<V>(m: map<string, V>, key: string, default: V): V {
    if key in m then m[key] else default
  }

  /** The time before which `key` is refused: the later of its own and the global lockout. */
  function BlockedUntil(lim: Limiter, key: string): real {
    var own := Get(lim.lockedUntil, key, 0.0);
    if own <= lim.globalLockedUntil then lim.globalLockedUntil else own
  }

  /** Exponential lockout for a source that has `count` failures in the window. */
  function Delay(cfg: Config, count: int): real {
    if count < cfg.maxAttempts then 0.0
    else MinReal(cfg.maxLockout, Doubled(cfg.baseLockout, count - cfg.maxAttempts))
  }

  function Failed(cfg: Config, lim: Limiter, key: string, now: real): Limiter {
    var events := DropOld(Get(lim.failures, key, []) + [now], now - cfg.window);
    var all := DropOld(lim.globalEvents + [now], now - cfg.window);
    Limiter(
      lim.failures[key := events],
      if |events| >= cfg.maxAttempts then lim.lockedUntil[key := now + Delay(cfg, |events|)] else lim.lockedUntil,
      all,
      if |all| >= cfg.globalMax then now + cfg.baseLockout else lim.globalLockedUntil)
  }

  function Succeeded(lim: Limiter, key: string): Limiter {
    lim.(failures := lim.failures - {key}, lockedUntil := lim.lockedUntil - {key})
  }

  /** Python's `int()` on a float: truncation toward zero. */
  function Truncate(x: real): int {
    if x >= 0.0 then x.Floor else -((-x).Floor)
  }

  class LoginRateLimiter {
    const cfg: Config
    var failures: map<string, seq<real>>
    var lockedUntil: map<string, real>
    var globalEvents: seq<real>
    var globalLockedUntil: real

    /** The limiter's whole state as a value. */
    ghost function State(): Limiter
      reads this
    {
      Limiter(failures, lockedUntil, globalEvents, globalLockedUntil)
    }

    constructor (cfg: Config)
      ensures this.cfg == cfg && State() == FRESH
    {
      this.cfg := cfg;
      failures, lockedUntil, globalEvents, globalLockedUntil := map[], map[], [], 0.0;
    }

    /** Allowed exactly when both lockouts have run out. */
    method IsAllowed(key: string, now: real) returns (allowed: bool)
      ensures allowed <==> BlockedUntil(State(), key) <= now
    {
      if now < globalLockedUntil {
        return false;
      }
      return Get(lockedUntil, key, 0.0) <= now;
    }

    method RecordFailure(key: string, now: real)
      modifies this
      ensures State() == Failed(cfg, old(State()), key, now)
    {
      var events := Get(failures, key, []) + [now];
      events := Prune(events, now - cfg.window);
      failures := failures[key := events];
      globalEvents := Prune(globalEvents + [now], now - cfg.window);
      if |events| >= cfg.maxAttempts {
        var over := |events| - cfg.maxAttempts;
        var delay := MinReal(cfg.maxLockout, Doubled(cfg.baseLockout, over));
        lockedUntil := lockedUntil[key := now + delay];
      }
      if |globalEvents| >= cfg.globalMax {
        globalLockedUntil := now + cfg.baseLockout;
      }
    }

    method RecordSuccess(key: string)
      modifies this
      ensures State() == Succeeded(old(State()), key)
    {
      failures := failures - {key};
      lockedUntil := lockedUntil - {key};
    }

    /** While locked, the answer is the remaining time rounded down, so a client that waits
        exactly that long may still be up to one second early; 0 when not locked. */
    method RetryAfter(key: string, now: real) returns (seconds: int)
      ensures now < BlockedUntil(State(), key) ==>
                seconds as real <= BlockedUntil(State(), key) - now < seconds as real + 1.0
      ensures BlockedUntil(State(), key) <= now ==> seconds == 0
    {
      var own := Get(lockedUntil, key, 0.0);
      var until := if own <= globalLockedUntil then globalLockedUntil else own;
      seconds := Truncate(until - now);
      if seconds < 0 { seconds := 0; }
    }
  }

  // ---------------------------------------------------------------- runs of the login route

  /** One POST to the login route: the check reads the clock at `checkedAt`, the verdict on the
      password is recorded at `answeredAt`. */
  datatype Attempt = Attempt(key: string, checkedAt: real, answeredAt: real, good: bool)

  /** `since[key]` is every failure of `key` since its last success, `all` every failure ever:
      full histories the limiter itself does not keep. */
  datatype Run = Run(lim: Limiter, now: real, since: map<string, seq<real>>, all: seq<real>)

  function Login(cfg: Config, r: Run, a: Attempt): Run {
    if a.checkedAt < BlockedUntil(r.lim, a.key) then r.(now := a.checkedAt)
    else if a.good then
      Run(Succeeded(r.lim, a.key), a.answeredAt, r.since - {a.key}, r.all)
    else
      Run(Failed(cfg, r.lim, a.key, a.answeredAt), a.answeredAt,
          r.since[a.key := Get(r.since, a.key, []) + [a.answeredAt]], r.all + [a.answeredAt])
  }

  function EndTime(start: real, attempts: seq<Attempt>): real {
    if attempts == [] then start else attempts[|attempts| - 1].answeredAt
  }

  /** One login at a time, under a clock that never runs backwards from `start`. */
  ghost predicate WellTimed(start: real, attempts: seq<Attempt>) {
    attempts == [] ||
    var before, last := attempts[..|attempts| - 1], attempts[|attempts| - 1];
    WellTimed(start, before) && EndTime(start, before) <= last.checkedAt <= last.answeredAt
  }

  function Play(cfg: Config, start: real, attempts: seq<Attempt>): Run {
    if attempts == [] then Run(FRESH, start, map[], [])
    else Login(cfg, Play(cfg, start, attempts[..|attempts| - 1]), attempts[|attempts| - 1])
  }

  datatype LoginReply = LoggedIn | InvalidCredentials | TooManyRequests(retryAfter: int)

  /** The login route on the real limiter: check, verify, record.  `r` is a run that the limiter
      has behind it; `retryAt` is when the Retry-After header is computed. */
  method HandleLogin(limiter: LoginRateLimiter, a: Attempt, retryAt: real, ghost r: Run) returns (reply: LoginReply)
    requires r.lim == limiter.State()
    modifies limiter
    ensures limiter.State() == Login(limiter.cfg, r, a).lim
    ensures var before := old(limiter.State());
            var free := Get(before.lockedUntil, a.key, 0.0) <= a.checkedAt && before.globalLockedUntil <= a.checkedAt;
            && (reply == LoggedIn <==> free && a.good)
            && (reply == InvalidCredentials <==> free && !a.good)
            && (!free ==> limiter.State() == before)
  {
    var allowed := limiter.IsAllowed(a.key, a.checkedAt);
    if !allowed {
      var seconds := limiter.RetryAfter(a.key, retryAt);
      return TooManyRequests(seconds);
    }
    if !a.good {
      limiter.RecordFailure(a.key, a.answeredAt);
      return InvalidCredentials;
    }
    limiter.RecordSuccess(a.key);
    return LoggedIn;
  }

  /** What the pruned deque owes to the full history `h`. */
  ghost predicate Mirrors(h: seq<real>, events: seq<real>, now: real, window: real) {
    && Ascending(h)
    && (h != [] ==> h[|h| - 1] <= now)
    && events == (if h == [] then [] else Recent(h, h[|h| - 1] - window))
  }

  /** If the failures `a..i` fit in one window and reach the threshold, then the next failure keeps
      the distance to the last of them that the lockout imposes; `until` stands for the failure still to come. */
  ghost predicate Keeps(h: seq<real>, until: real, a: nat, i: nat, window: real, threshold: int, gap: int -> real)
    requires a <= i < |h|
  {
    h[i] < h[a] + window && i + 1 - a >= threshold ==>
      (if i + 1 < |h| then h[i + 1] else until) >= h[i] + gap(i + 1 - a)
  }

  /** Failures that fit in a window are spaced by the lockouts, and so will the next one be. */
  ghost predicate Guards(h: seq<real>, until: real, window: real, threshold: int, gap: int -> real) {
    forall a: nat, i: nat :: a <= i < |h| ==> Keeps(h, until, a, i, window, threshold, gap)
  }

  ghost predicate MonotoneFrom(gap: int -> real, threshold: int) {
    forall m, n :: threshold <= m <= n ==> gap(m) <= gap(n)
  }

  lemma DequeAppend(h: seq<real>, events: seq<real>, earlier: real, window: real, t: real)
    requires Ascending(h + [t]) && events == Recent(h, earlier) && earlier <= t - window
    ensures DropOld(events + [t], t - window) == Recent(h + [t], (h + [t])[|h + [t]| - 1] - window)
  {
    PruneRefinesHistory(h, earlier, t, t - window);
  }

  lemma MirrorsAppend(h: seq<real>, events: seq<real>, now: real, window: real, t: real)
    requires Mirrors(h, events, now, window) && now <= t
    ensures Mirrors(h + [t], DropOld(events + [t], t - window), t, window)
  {
    AscendingAppend(h, t);
    DequeAppend(h, events, if h == [] then t - window else h[|h| - 1] - window, window, t);
  }

  lemma GuardsAppend(h: seq<real>, until: real, window: real, threshold: int, gap: int -> real,
                     t: real, events': seq<real>, until': real)
    requires Guards(h, until, window, threshold, gap) && MonotoneFrom(gap, threshold)
    requires until <= t && Mirrors(h + [t], events', t, window)
    requires |events'| >= threshold ==> until' == t + gap(|events'|)
    ensures Guards(h + [t], until', window, threshold, gap)
  {
    var h' := h + [t];
    var n := RecentIsSuffix(h', t - window);
    forall a: nat, i: nat | a <= i < |h'|
      ensures Keeps(h', until', a, i, window, threshold, gap)
    {
      if i < |h| {
        assert Keeps(h, until, a, i, window, threshold, gap);
      } else if t < h'[a] + window {
        assert |events'| == |h'| - n >= |h'| - a;
      }
    }
  }

  function SourceGap(cfg: Config): int -> real { count => Delay(cfg, count) }
  function GlobalGap(cfg: Config): int -> real { count => cfg.baseLockout }

  ghost predicate MirrorsAll(cfg: Config, r: Run) {
    && (forall key :: Mirrors(Get(r.since, key, []), Get(r.lim.failures, key, []), r.now, cfg.window))
    && Mirrors(r.all, r.lim.globalEvents, r.now, cfg.window)
  }

  ghost predicate GuardsAll(cfg: Config, r: Run) {
    && (forall key ::
          Guards(Get(r.since, key, []), Get(r.lim.lockedUntil, key, 0.0), cfg.window, cfg.maxAttempts, SourceGap(cfg)))
    && Guards(r.all, r.lim.globalLockedUntil, cfg.window, cfg.globalMax, GlobalGap(cfg))
  }

  predicate Fails(r: Run, a: Attempt) {
    BlockedUntil(r.lim, a.key) <= a.checkedAt && !a.good
  }

  lemma LoginMirrors(cfg: Config, r: Run, a: Attempt)
    requires MirrorsAll(cfg, r) && r.now <= a.checkedAt <= a.answeredAt
    ensures MirrorsAll(cfg, Login(cfg, r, a))
  {
    var r' := Login(cfg, r, a);
    LoginMirrorsGlobal(cfg, r, a);
    forall key
      ensures Mirrors(Get(r'.since, key, []), Get(r'.lim.failures, key, []), r'.now, cfg.window)
    {
      LoginMirrorsKey(cfg, r, a, key);
    }
  }

  lemma LoginMirrorsGlobal(cfg: Config, r: Run, a: Attempt)
    requires Mirrors(r.all, r.lim.globalEvents, r.now, cfg.window)
    requires r.now <= a.checkedAt <= a.answeredAt
    ensures var r' := Login(cfg, r, a); Mirrors(r'.all, r'.lim.globalEvents, r'.now, cfg.window)
  {
    if Fails(r, a) {
      MirrorsAppend(r.all, r.lim.globalEvents, r.now, cfg.window, a.answeredAt);
    }
  }

  lemma LoginMirrorsKey(cfg: Config, r: Run, a: Attempt, key: string)
    requires Mirrors(Get(r.since, key, []), Get(r.lim.failures, key, []), r.now, cfg.window)
    requires r.now <= a.checkedAt <= a.answeredAt
    ensures var r' := Login(cfg, r, a);
            Mirrors(Get(r'.since, key, []), Get(r'.lim.failures, key, []), r'.now, cfg.window)
  {
    if key == a.key && Fails(r, a) {
      MirrorsAppend(Get(r.since, key, []), Get(r.lim.failures, key, []), r.now, cfg.window, a.answeredAt);
    }
  }

  lemma LoginGuards(cfg: Config, r: Run, a: Attempt)
    requires MirrorsAll(cfg, r) && GuardsAll(cfg, r) && r.now <= a.checkedAt <= a.answeredAt
    requires cfg.baseLockout >= 0.0
    ensures GuardsAll(cfg, Login(cfg, r, a))
  {
    var r' := Login(cfg, r, a);
    LoginMirrors(cfg, r, a);
    if Fails(r, a) {
      GuardsAppend(r.all, r.lim.globalLockedUntil, cfg.window, cfg.globalMax, GlobalGap(cfg),
                   a.answeredAt, r'.lim.globalEvents, r'.lim.globalLockedUntil);
    }
    forall key
      ensures Guards(Get(r'.since, key, []), Get(r'.lim.lockedUntil, key, 0.0), cfg.window, cfg.maxAttempts,
                SourceGap(cfg))
    {
      LoginGuardsKey(cfg, r, a, key);
    }
  }

  lemma LoginGuardsKey(cfg: Config, r: Run, a: Attempt, key: string)
    requires Guards(Get(r.since, key, []), Get(r.lim.lockedUntil, key, 0.0), cfg.window, cfg.maxAttempts,
              SourceGap(cfg))
    requires Mirrors(Get(r.since, key, []), Get(r.lim.failures, key, []), r.now, cfg.window)
    requires r.now <= a.checkedAt <= a.answeredAt && cfg.baseLockout >= 0.0
    ensures var r' := Login(cfg, r, a);
            Guards(Get(r'.since, key, []), Get(r'.lim.lockedUntil, key, 0.0), cfg.window, cfg.maxAttempts,
                SourceGap(cfg))
  {
    if key == a.key && Fails(r, a) {
      var r' := Login(cfg, r, a);
      DelayMonotone(cfg);
      LoginMirrorsKey(cfg, r, a, key);
      GuardsAppend(Get(r.since, key, []), Get(r.lim.lockedUntil, key, 0.0), cfg.window, cfg.maxAttempts, SourceGap(cfg),
                   a.answeredAt, Get(r'.lim.failures, key, []), Get(r'.lim.lockedUntil, key, 0.0));
    }
  }

  lemma DelayMonotone(cfg: Config)
    requires cfg.baseLockout >= 0.0
    ensures MonotoneFrom(SourceGap(cfg), cfg.maxAttempts)
  {
    forall m, n | cfg.maxAttempts <= m <= n ensures SourceGap(cfg)(m) <= SourceGap(cfg)(n) {
      DoubledMonotone(cfg.baseLockout, m - cfg.maxAttempts, n - cfg.maxAttempts);
    }
  }

  lemma {:induction false} RunsKeepInvariants(cfg: Config, start: real, attempts: seq<Attempt>)
    requires WellTimed(start, attempts)
    ensures MirrorsAll(cfg, Play(cfg, start, attempts))
    ensures cfg.baseLockout >= 0.0 ==> GuardsAll(cfg, Play(cfg, start, attempts))
    ensures Play(cfg, start, attempts).now <= EndTime(start, attempts)
  {
    if attempts != [] {
      var n := |attempts| - 1;
      RunsKeepInvariants(cfg, start, attempts[..n]);
      LoginMirrors(cfg, Play(cfg, start, attempts[..n]), attempts[n]);
      if cfg.baseLockout >= 0.0 {
        LoginGuards(cfg, Play(cfg, start, attempts[..n]), attempts[n]);
      }
    }
  }

  /** The pruned deque is the full history since the last success, filtered to the window:
      pruning in place never forgets a failure that still counts. */
  lemma {:induction false} DequeRefinesHistory(cfg: Config, start: real, attempts: seq<Attempt>, key: string)
    requires WellTimed(start, attempts)
    ensures var r := Play(cfg, start, attempts);
            var h := Get(r.since, key, []);
            Get(r.lim.failures, key, []) == (if h == [] then [] else Recent(h, h[|h| - 1] - cfg.window))
    ensures var r := Play(cfg, start, attempts);
            r.lim.globalEvents == (if r.all == [] then [] else Recent(r.all, r.all[|r.all| - 1] - cfg.window))
  {
    RunsKeepInvariants(cfg, start, attempts);
    var r := Play(cfg, start, attempts);
    assert Mirrors(Get(r.since, key, []), Get(r.lim.failures, key, []), r.now, cfg.window);
  }

  // ---------------------------------------------------------------- how many failures fit

  function AtLeastOne(n: int): nat { if n < 1 then 1 else n }

  /** Past the threshold the failures of one window climb at least like base * (2^j - 1). */
  lemma {:induction false} ExponentialClimb(cfg: Config, h: seq<real>, until: real, a: nat, b: nat, j: nat)
    requires Ascending(h) && Guards(h, until, cfg.window, cfg.maxAttempts, SourceGap(cfg))
    requires cfg.baseLockout >= 0.0 && cfg.maxLockout >= cfg.window
    requires a <= b < |h| && h[b] < h[a] + cfg.window
    requires a + AtLeastOne(cfg.maxAttempts) - 1 + j <= b
    ensures var m := a + AtLeastOne(cfg.maxAttempts) - 1;
            h[m + j] >= h[m] + Doubled(cfg.baseLockout, j) - cfg.baseLockout
  {
    if j > 0 {
      ExponentialClimb(cfg, h, until, a, b, j - 1);
      var m := a + AtLeastOne(cfg.maxAttempts) - 1;
      var i := m + j - 1;
      assert Ordered(h, a, i) && Ordered(h, i, b) && Ordered(h, i + 1, b);
      assert Keeps(h, until, a, i, cfg.window, cfg.maxAttempts, SourceGap(cfg));
      DoubledMonotone(cfg.baseLockout, j - 1, i + 1 - a - cfg.maxAttempts);
    }
  }

  /** Past the threshold the failures of one window, over all sources, are base apart. */
  lemma {:induction false} LinearClimb(cfg: Config, h: seq<real>, until: real, a: nat, b: nat, j: nat)
    requires Ascending(h) && Guards(h, until, cfg.window, cfg.globalMax, GlobalGap(cfg))
    requires a <= b < |h| && h[b] < h[a] + cfg.window
    requires a + AtLeastOne(cfg.globalMax) - 1 + j <= b
    ensures var m := a + AtLeastOne(cfg.globalMax) - 1;
            h[m + j] >= h[m] + Repeated(j, cfg.baseLockout)
  {
    if j > 0 {
      LinearClimb(cfg, h, until, a, b, j - 1);
      var i := a + AtLeastOne(cfg.globalMax) - 1 + j - 1;
      assert Ordered(h, a, i) && Ordered(h, i, b) && Ordered(h, i + 1, b);
      assert Keeps(h, until, a, i, cfg.window, cfg.globalMax, GlobalGap(cfg));
    }
  }

  lemma SourceStretch(cfg: Config, h: seq<real>, until: real, a: nat, b: nat, k: nat)
    requires Ascending(h) && Guards(h, until, cfg.window, cfg.maxAttempts, SourceGap(cfg))
    requires cfg.baseLockout >= 0.0 && cfg.maxLockout >= cfg.window
    requires cfg.window <= Doubled(cfg.baseLockout, k + 1) - cfg.baseLockout
    requires a < b <= |h| && h[b - 1] < h[a] + cfg.window
    ensures b - a <= AtLeastOne(cfg.maxAttempts) + k
  {
    if b - a > AtLeastOne(cfg.maxAttempts) + k {
      var m := a + AtLeastOne(cfg.maxAttempts) - 1;
      assert Ordered(h, a, m) && Ordered(h, m + (k + 1), b - 1);
      ExponentialClimb(cfg, h, until, a, b - 1, k + 1);
      assert false;
    }
  }

  lemma GlobalStretch(cfg: Config, h: seq<real>, until: real, a: nat, b: nat, k: nat)
    requires Ascending(h) && Guards(h, until, cfg.window, cfg.globalMax, GlobalGap(cfg))
    requires cfg.window <= Repeated(k + 1, cfg.baseLockout)
    requires a < b <= |h| && h[b - 1] < h[a] + cfg.window
    ensures b - a <= AtLeastOne(cfg.globalMax) + k
  {
    if b - a > AtLeastOne(cfg.globalMax) + k {
      var m := a + AtLeastOne(cfg.globalMax) - 1;
      assert Ordered(h, a, m) && Ordered(h, m + (k + 1), b - 1);
      LinearClimb(cfg, h, until, a, b - 1, k + 1);
      assert false;
    }
  }

  /** However a source times its logins, any window holds at most
      max_attempts + k of its failures since its last success, where base * (2^(k+1) - 1)
      already reaches the window. */
  lemma {:induction false} PerSourceBound(cfg: Config, start: real, attempts: seq<Attempt>, key: string,
                                          t: real, k: nat)
    requires WellTimed(start, attempts)
    requires cfg.baseLockout > 0.0 && cfg.maxLockout >= cfg.window
    requires cfg.window <= Doubled(cfg.baseLockout, k + 1) - cfg.baseLockout
    ensures |InWindow(Get(Play(cfg, start, attempts).since, key, []), t - cfg.window, t)|
              <= AtLeastOne(cfg.maxAttempts) + k
  {
    RunsKeepInvariants(cfg, start, attempts);
    var r := Play(cfg, start, attempts);
    var h, until := Get(r.since, key, []), Get(r.lim.lockedUntil, key, 0.0);
    assert Mirrors(h, Get(r.lim.failures, key, []), r.now, cfg.window);
    assert Guards(h, until, cfg.window, cfg.maxAttempts, SourceGap(cfg));
    var a, b := WindowIsStretch(h, t - cfg.window, t);
    if a < b { SourceStretch(cfg, h, until, a, b, k); }
  }

  /** Over all sources together, successes included, any window holds at most
      global_max_attempts + k failures, where (k+1) * base already reaches the window. */
  lemma {:induction false} GlobalBound(cfg: Config, start: real, attempts: seq<Attempt>, t: real, k: nat)
    requires WellTimed(start, attempts)
    requires cfg.baseLockout > 0.0
    requires cfg.window <= Repeated(k + 1, cfg.baseLockout)
    ensures |InWindow(Play(cfg, start, attempts).all, t - cfg.window, t)| <= AtLeastOne(cfg.globalMax) + k
  {
    RunsKeepInvariants(cfg, start, attempts);
    var r := Play(cfg, start, attempts);
    var a, b := WindowIsStretch(r.all, t - cfg.window, t);
    if a < b { GlobalStretch(cfg, r.all, r.lim.globalLockedUntil, a, b, k); }
  }

  /** With the shipped settings: 7 failures of one source, 24 in all, per five minutes. */
  lemma DefaultBounds(start: real, attempts: seq<Attempt>, key: string, t: real)
    requires WellTimed(start, attempts)
    ensures |InWindow(Get(Play(DEFAULTS, start, attempts).since, key, []), t - 300.0, t)| <= 7
    ensures |InWindow(Play(DEFAULTS, start, attempts).all, t - 300.0, t)| <= 24
  {
    assert Doubled(60.0, 1) == 120.0 && Doubled(60.0, 2) == 240.0 && Doubled(60.0, 3) == 480.0;
    PerSourceBound(DEFAULTS, start, attempts, key, t, 2);
    RepeatedIsProduct(5, 60.0);
    GlobalBound(DEFAULTS, start, attempts, t, 4);
  }

  // ---------------------------------------------------------------- the bound is reached

  /** The `i`-th guess of a patient attacker: `m` at once, then one as each lockout ends. */
  function GuessTime(cfg: Config, i: nat): real
    requires cfg.maxAttempts >= 1
  {
    if i < cfg.maxAttempts then 0.0 else Doubled(cfg.baseLockout, i + 1 - cfg.maxAttempts) - cfg.baseLockout
  }

  function Guesses(cfg: Config, key: string, n: nat): (r: seq<Attempt>)
    requires cfg.maxAttempts >= 1
    ensures |r| == n
  {
    if n == 0 then []
    else Guesses(cfg, key, n - 1) + [Attempt(key, GuessTime(cfg, n - 1), GuessTime(cfg, n - 1), false)]
  }

  function GuessTimes(cfg: Config, n: nat): (r: seq<real>)
    requires cfg.maxAttempts >= 1
    ensures |r| == n && forall i :: 0 <= i < n ==> r[i] == GuessTime(cfg, i)
  {
    if n == 0 then [] else GuessTimes(cfg, n - 1) + [GuessTime(cfg, n - 1)]
  }

  lemma GuessTimesAscend(cfg: Config, i: nat, j: nat)
    requires cfg.maxAttempts >= 1 && cfg.baseLockout > 0.0 && i <= j
    ensures 0.0 <= GuessTime(cfg, i) <= GuessTime(cfg, j)
  {
    if cfg.maxAttempts <= i { DoubledMonotone(cfg.baseLockout, i + 1 - cfg.maxAttempts, j + 1 - cfg.maxAttempts); }
  }

  lemma {:induction false} GuessesAreWellTimed(cfg: Config, key: string, n: nat)
    requires cfg.maxAttempts >= 1 && cfg.baseLockout > 0.0
    ensures WellTimed(0.0, Guesses(cfg, key, n))
    ensures EndTime(0.0, Guesses(cfg, key, n)) <= GuessTime(cfg, n)
  {
    GuessTimesAscend(cfg, n, n);
    if n > 0 {
      GuessesAreWellTimed(cfg, key, n - 1);
      assert Guesses(cfg, key, n)[..n - 1] == Guesses(cfg, key, n - 1);
      GuessTimesAscend(cfg, n - 1, n);
    }
  }

  /** After `n` guesses nothing has been forgotten, and the next guess is not refused. */
  ghost predicate Guessed(cfg: Config, key: string, n: nat, r: Run)
    requires cfg.maxAttempts >= 1
  {
    && Get(r.since, key, []) == Get(r.lim.failures, key, []) == r.lim.globalEvents == GuessTimes(cfg, n)
    && BlockedUntil(r.lim, key) <= GuessTime(cfg, n)
  }

  lemma OneMoreGuess(cfg: Config, key: string, n: nat, r: Run)
    requires cfg.maxAttempts >= 1 && cfg.baseLockout > 0.0
    requires cfg.globalMax > n + 1 && GuessTime(cfg, n) < cfg.window
    requires Guessed(cfg, key, n, r)
    ensures Guessed(cfg, key, n + 1, Login(cfg, r, Attempt(key, GuessTime(cfg, n), GuessTime(cfg, n), false)))
  {
    var t := GuessTime(cfg, n);
    GuessTimesAscend(cfg, n, n + 1);
    var h := GuessTimes(cfg, n + 1);
    assert h == GuessTimes(cfg, n) + [t];
    GuessTimesAscend(cfg, 0, n);
    assert DropOld(h, t - cfg.window) == h;
    assert n + 1 >= cfg.maxAttempts ==> t + Doubled(cfg.baseLockout, n + 1 - cfg.maxAttempts) == GuessTime(cfg, n + 1);
  }

  lemma {:induction false} EveryGuessIsTried(cfg: Config, key: string, n: nat)
    requires cfg.maxAttempts >= 1 && cfg.baseLockout > 0.0 && cfg.globalMax > n
    requires n > 0 ==> GuessTime(cfg, n - 1) < cfg.window
    ensures Guessed(cfg, key, n, Play(cfg, 0.0, Guesses(cfg, key, n)))
  {
    GuessTimesAscend(cfg, n, n);
    if n > 0 {
      if n > 1 { GuessTimesAscend(cfg, n - 2, n - 1); }
      EveryGuessIsTried(cfg, key, n - 1);
      assert Guesses(cfg, key, n)[..n - 1] == Guesses(cfg, key, n - 1);
      OneMoreGuess(cfg, key, n - 1, Play(cfg, 0.0, Guesses(cfg, key, n - 1)));
    }
  }

  lemma {:induction false} AllInWindow(h: seq<real>, lo: real, hi: real)
    requires forall i :: 0 <= i < |h| ==> lo < h[i] <= hi
    ensures InWindow(h, lo, hi) == h
  {
    if h != [] {
      AllInWindow(h[..|h| - 1], lo, hi);
      assert h == h[..|h| - 1] + [h[|h| - 1]];
    }
  }

  lemma GuessTimesFit(cfg: Config, n: nat)
    requires cfg.maxAttempts >= 1 && cfg.baseLockout > 0.0 && n > 0 && GuessTime(cfg, n - 1) < cfg.window
    ensures InWindow(GuessTimes(cfg, n), GuessTime(cfg, n - 1) - cfg.window, GuessTime(cfg, n - 1))
              == GuessTimes(cfg, n)
  {
    var t := GuessTime(cfg, n - 1);
    forall i | 0 <= i < n ensures t - cfg.window < GuessTime(cfg, i) <= t {
      GuessTimesAscend(cfg, i, n - 1);
    }
    AllInWindow(GuessTimes(cfg, n), t - cfg.window, t);
  }

  lemma LastGuessTime(cfg: Config, k: nat)
    requires cfg.maxAttempts >= 1
    ensures GuessTime(cfg, cfg.maxAttempts + k - 1) == Doubled(cfg.baseLockout, k) - cfg.baseLockout
  {
  }

  lemma GuessesFill(cfg: Config, key: string, n: nat)
    requires cfg.maxAttempts >= 1 && cfg.baseLockout > 0.0 && cfg.globalMax > n > 0
    requires GuessTime(cfg, n - 1) < cfg.window
    ensures WellTimed(0.0, Guesses(cfg, key, n))
    ensures |InWindow(Get(Play(cfg, 0.0, Guesses(cfg, key, n)).since, key, []),
                      GuessTime(cfg, n - 1) - cfg.window, GuessTime(cfg, n - 1))| == n
  {
    GuessesAreWellTimed(cfg, key, n);
    EveryGuessIsTried(cfg, key, n);
    GuessTimesFit(cfg, n);
  }

  /** PerSourceBound cannot be improved: whenever base * (2^k - 1) is still shorter than the
      window, some well-timed run puts exactly max_attempts + k failures into one window. */
  lemma PerSourceBoundIsReached(cfg: Config, key: string, k: nat) returns (attempts: seq<Attempt>, t: real)
    requires cfg.maxAttempts >= 1 && cfg.baseLockout > 0.0
    requires cfg.globalMax > cfg.maxAttempts + k
    requires Doubled(cfg.baseLockout, k) - cfg.baseLockout < cfg.window
    ensures WellTimed(0.0, attempts)
    ensures |InWindow(Get(Play(cfg, 0.0, attempts).since, key, []), t - cfg.window, t)| == cfg.maxAttempts + k
  {
    var n := cfg.maxAttempts + k;
    LastGuessTime(cfg, k);
    GuessesFill(cfg, key, n);
    attempts, t := Guesses(cfg, key, n), GuessTime(cfg, n - 1);
  }

  // ---------------------------------------------------------------- and so is the global one

  /** A source that has not been seen before. */
  function Stranger(i: nat): (key: string)
    ensures |key| == i
  {
    seq(i, _ => 'x')
  }

  /** The `i`-th guess when each comes from a new source: `global_max` at once, then one as each
      global lockout ends. */
  function SprayTime(cfg: Config, i: nat): real
    requires cfg.globalMax >= 1
  {
    if i < cfg.globalMax then 0.0 else Repeated(i + 1 - cfg.globalMax, cfg.baseLockout)
  }

  function Spray(cfg: Config, n: nat): (r: seq<Attempt>)
    requires cfg.globalMax >= 1
    ensures |r| == n
  {
    if n == 0 then []
    else Spray(cfg, n - 1) + [Attempt(Stranger(n - 1), SprayTime(cfg, n - 1), SprayTime(cfg, n - 1), false)]
  }

  function SprayTimes(cfg: Config, n: nat): (r: seq<real>)
    requires cfg.globalMax >= 1
    ensures |r| == n && forall i :: 0 <= i < n ==> r[i] == SprayTime(cfg, i)
  {
    if n == 0 then [] else SprayTimes(cfg, n - 1) + [SprayTime(cfg, n - 1)]
  }

  lemma SprayTimesAscend(cfg: Config, i: nat, j: nat)
    requires cfg.globalMax >= 1 && cfg.baseLockout > 0.0 && i <= j
    ensures 0.0 <= SprayTime(cfg, i) <= SprayTime(cfg, j)
  {
    if cfg.globalMax <= j { RepeatedGrows(0, j + 1 - cfg.globalMax, cfg.baseLockout); }
    if cfg.globalMax <= i {
      RepeatedGrows(0, i + 1 - cfg.globalMax, cfg.baseLockout);
      RepeatedGrows(i + 1 - cfg.globalMax, j + 1 - cfg.globalMax, cfg.baseLockout);
    }
  }

  lemma {:induction false} SprayIsWellTimed(cfg: Config, n: nat)
    requires cfg.globalMax >= 1 && cfg.baseLockout > 0.0
    ensures WellTimed(0.0, Spray(cfg, n))
    ensures EndTime(0.0, Spray(cfg, n)) <= SprayTime(cfg, n)
  {
    SprayTimesAscend(cfg, n, n);
    if n > 0 {
      SprayIsWellTimed(cfg, n - 1);
      assert Spray(cfg, n)[..n - 1] == Spray(cfg, n - 1);
      SprayTimesAscend(cfg, n - 1, n);
    }
  }

  /** After `n` such guesses nothing has been forgotten and the next source is not refused. */
  ghost predicate Sprayed(cfg: Config, n: nat, r: Run)
    requires cfg.globalMax >= 1
  {
    && r.all == r.lim.globalEvents == SprayTimes(cfg, n)
    && r.lim.globalLockedUntil <= SprayTime(cfg, n)
    && forall key :: key in r.lim.lockedUntil ==> |key| < n
  }

  lemma OneMoreStranger(cfg: Config, n: nat, r: Run)
    requires cfg.globalMax >= 1 && cfg.baseLockout > 0.0
    requires SprayTime(cfg, n) < cfg.window
    requires Sprayed(cfg, n, r)
    ensures Sprayed(cfg, n + 1, Login(cfg, r, Attempt(Stranger(n), SprayTime(cfg, n), SprayTime(cfg, n), false)))
  {
    var t, h := SprayTime(cfg, n), SprayTimes(cfg, n + 1);
    SprayTimesAscend(cfg, n, n + 1);
    SprayTimesAscend(cfg, 0, n);
    assert h == SprayTimes(cfg, n) + [t];
    assert DropOld(h, t - cfg.window) == h;
    assert Stranger(n) !in r.lim.lockedUntil;
    assert Repeated(1, cfg.baseLockout) == cfg.baseLockout;
    assert n + 1 >= cfg.globalMax ==> t + cfg.baseLockout == SprayTime(cfg, n + 1);
  }

  lemma {:induction false} EveryStrangerIsTried(cfg: Config, n: nat)
    requires cfg.globalMax >= 1 && cfg.baseLockout > 0.0
    requires n > 0 ==> SprayTime(cfg, n - 1) < cfg.window
    ensures Sprayed(cfg, n, Play(cfg, 0.0, Spray(cfg, n)))
  {
    if n > 0 {
      if n > 1 { SprayTimesAscend(cfg, n - 2, n - 1); }
      EveryStrangerIsTried(cfg, n - 1);
      assert Spray(cfg, n)[..n - 1] == Spray(cfg, n - 1);
      OneMoreStranger(cfg, n - 1, Play(cfg, 0.0, Spray(cfg, n - 1)));
    }
  }

  lemma SprayTimesFit(cfg: Config, n: nat)
    requires cfg.globalMax >= 1 && cfg.baseLockout > 0.0 && n > 0 && SprayTime(cfg, n - 1) < cfg.window
    ensures InWindow(SprayTimes(cfg, n), SprayTime(cfg, n - 1) - cfg.window, SprayTime(cfg, n - 1))
              == SprayTimes(cfg, n)
  {
    var t := SprayTime(cfg, n - 1);
    forall i | 0 <= i < n ensures t - cfg.window < SprayTime(cfg, i) <= t {
      SprayTimesAscend(cfg, i, n - 1);
    }
    AllInWindow(SprayTimes(cfg, n), t - cfg.window, t);
  }

  lemma LastSprayTime(cfg: Config, k: nat)
    requires cfg.globalMax >= 1
    ensures SprayTime(cfg, cfg.globalMax + k - 1) == Repeated(k, cfg.baseLockout)
  {
  }

  lemma SprayFills(cfg: Config, n: nat)
    requires cfg.globalMax >= 1 && cfg.baseLockout > 0.0 && n > 0
    requires SprayTime(cfg, n - 1) < cfg.window
    ensures WellTimed(0.0, Spray(cfg, n))
    ensures |InWindow(Play(cfg, 0.0, Spray(cfg, n)).all, SprayTime(cfg, n - 1) - cfg.window, SprayTime(cfg, n - 1))|
              == n
  {
    SprayIsWellTimed(cfg, n);
    EveryStrangerIsTried(cfg, n);
    SprayTimesFit(cfg, n);
  }

  /** GlobalBound cannot be improved either: whenever k * base is still shorter than the window,
      some well-timed run over ever new sources puts exactly global_max_attempts + k failures
      into one window. */
  lemma GlobalBoundIsReached(cfg: Config, k: nat) returns (attempts: seq<Attempt>, t: real)
    requires cfg.globalMax >= 1 && cfg.baseLockout > 0.0
    requires Repeated(k, cfg.baseLockout) < cfg.window
    ensures WellTimed(0.0, attempts)
    ensures |InWindow(Play(cfg, 0.0, attempts).all, t - cfg.window, t)| == cfg.globalMax + k
  {
    var n := cfg.globalMax + k;
    LastSprayTime(cfg, k);
    SprayFills(cfg, n);
    attempts, t := Spray(cfg, n), SprayTime(cfg, n - 1);
  }

  // ---------------------------------------------------------------- one login, exactly

  /** The lockout for `over` failures past the threshold: base * 2^over, up to the cap. */
  predicate IsLockout(cfg: Config, over: nat, delay: real) {
    && delay <= cfg.maxLockout
    && (Doubled(cfg.baseLockout, over) <= cfg.maxLockout ==> delay == Doubled(cfg.baseLockout, over))
    && (Doubled(cfg.baseLockout, over) >= cfg.maxLockout ==> delay == cfg.maxLockout)
  }

  /** With the shipped settings the lockouts are 1, 2, 4, 8, 16 and 32 minutes, then one hour. */
  lemma DefaultLockouts(over: nat, delay: real)
    requires IsLockout(DEFAULTS, over, delay)
    ensures over == 0 ==> delay == 60.0
    ensures over == 1 ==> delay == 120.0
    ensures over == 2 ==> delay == 240.0
    ensures over == 3 ==> delay == 480.0
    ensures over == 4 ==> delay == 960.0
    ensures over == 5 ==> delay == 1920.0
    ensures over >= 6 ==> delay == 3600.0
  {
    assert Doubled(60.0, 2) == 240.0 && Doubled(60.0, 4) == 4.0 * Doubled(60.0, 2);
    assert Doubled(60.0, 6) == 4.0 * Doubled(60.0, 4);
    if over >= 6 { DoubledMonotone(60.0, 6, over); }
  }

  predicate Free(r: Run, a: Attempt) {
    Get(r.lim.lockedUntil, a.key, 0.0) <= a.checkedAt && r.lim.globalLockedUntil <= a.checkedAt
  }

  /** Nothing that concerns `key` differs. */
  ghost predicate SameFor(r: Run, r': Run, key: string) {
    && Get(r.lim.lockedUntil, key, 0.0) == Get(r'.lim.lockedUntil, key, 0.0)
    && Get(r.lim.failures, key, []) == Get(r'.lim.failures, key, [])
    && Get(r.since, key, []) == Get(r'.since, key, [])
  }

  /** A refused login changes nothing; a success wipes the source's own slate and leaves the
      global one; neither touches another source. */
  lemma RefusalAndSuccess(cfg: Config, r: Run, a: Attempt)
    requires !Free(r, a) || a.good
    ensures var r' := Login(cfg, r, a);
            && r'.lim.globalEvents == r.lim.globalEvents && r'.lim.globalLockedUntil == r.lim.globalLockedUntil
            && r'.all == r.all
            && (forall key :: key != a.key || !Free(r, a) ==> SameFor(r, r', key))
            && (Free(r, a) ==> Get(r'.lim.lockedUntil, a.key, 0.0) == 0.0
                               && Get(r'.lim.failures, a.key, []) == [] && Get(r'.since, a.key, []) == [])
  {
  }

  /** What a recorded failure does to its source, which then has `n` in its deque. */
  ghost predicate SourceLocked(cfg: Config, r: Run, r': Run, a: Attempt, n: nat) {
    if n < cfg.maxAttempts then Get(r'.lim.lockedUntil, a.key, 0.0) == Get(r.lim.lockedUntil, a.key, 0.0)
    else n - cfg.maxAttempts >= 0
         && IsLockout(cfg, n - cfg.maxAttempts, Get(r'.lim.lockedUntil, a.key, 0.0) - a.answeredAt)
  }

  /** And to the global lockout, with `n` in the global deque. */
  ghost predicate AllLocked(cfg: Config, r: Run, r': Run, a: Attempt, n: nat) {
    r'.lim.globalLockedUntil == if n < cfg.globalMax then r.lim.globalLockedUntil else a.answeredAt + cfg.baseLockout
  }

  lemma FailedLocks(cfg: Config, r: Run, a: Attempt)
    requires Free(r, a) && !a.good
    ensures SourceLocked(cfg, r, Login(cfg, r, a), a, |Get(Login(cfg, r, a).lim.failures, a.key, [])|)
    ensures AllLocked(cfg, r, Login(cfg, r, a), a, |Login(cfg, r, a).lim.globalEvents|)
    ensures forall key :: key != a.key ==> SameFor(r, Login(cfg, r, a), key)
  {
  }

  lemma PlayAppend(cfg: Config, start: real, attempts: seq<Attempt>, a: Attempt)
    ensures Play(cfg, start, attempts + [a]) == Login(cfg, Play(cfg, start, attempts), a)
  {
    assert (attempts + [a])[..|attempts|] == attempts;
  }

  lemma FailedHistories(cfg: Config, r: Run, a: Attempt)
    requires Free(r, a) && !a.good
    ensures Get(Login(cfg, r, a).since, a.key, []) == Get(r.since, a.key, []) + [a.answeredAt]
    ensures Login(cfg, r, a).all == r.all + [a.answeredAt]
  {
  }

  /** The deque is the history filtered to the window that ends with its last event. */
  ghost predicate Filtered(h: seq<real>, events: seq<real>, window: real) {
    events == if h == [] then [] else Recent(h, h[|h| - 1] - window)
  }

  lemma FilteredAt(h: seq<real>, t: real, events: seq<real>, window: real)
    requires Filtered(h + [t], events, window)
    ensures events == Recent(h + [t], t - window)
  {
  }

  lemma DequesAreFiltered(cfg: Config, start: real, attempts: seq<Attempt>, key: string, r: Run)
    requires WellTimed(start, attempts) && r == Play(cfg, start, attempts)
    ensures Filtered(Get(r.since, key, []), Get(r.lim.failures, key, []), cfg.window)
    ensures Filtered(r.all, r.lim.globalEvents, cfg.window)
  {
    DequeRefinesHistory(cfg, start, attempts, key);
  }

  /** The failure stands in the histories of `r'`, and the deques of `r'` are their filters. */
  ghost predicate Recorded(cfg: Config, r: Run, r': Run, a: Attempt) {
    && Get(r'.since, a.key, []) == Get(r.since, a.key, []) + [a.answeredAt] && r'.all == r.all + [a.answeredAt]
    && Filtered(Get(r'.since, a.key, []), Get(r'.lim.failures, a.key, []), cfg.window)
    && Filtered(r'.all, r'.lim.globalEvents, cfg.window)
  }

  lemma CountsAreFull(cfg: Config, a: Attempt, r: Run, r': Run)
    requires Recorded(cfg, r, r', a)
    ensures Get(r'.lim.failures, a.key, [])
              == Recent(Get(r.since, a.key, []) + [a.answeredAt], a.answeredAt - cfg.window)
    ensures r'.lim.globalEvents == Recent(r.all + [a.answeredAt], a.answeredAt - cfg.window)
  {
    FilteredAt(Get(r.since, a.key, []), a.answeredAt, Get(r'.lim.failures, a.key, []), cfg.window);
    FilteredAt(r.all, a.answeredAt, r'.lim.globalEvents, cfg.window);
  }

  lemma FailureIsRecorded(cfg: Config, start: real, attempts: seq<Attempt>, a: Attempt)
    requires WellTimed(start, attempts + [a]) && Free(Play(cfg, start, attempts), a) && !a.good
    ensures Recorded(cfg, Play(cfg, start, attempts), Play(cfg, start, attempts + [a]), a)
  {
    PlayAppend(cfg, start, attempts, a);
    DequesAreFiltered(cfg, start, attempts + [a], a.key, Play(cfg, start, attempts + [a]));
    FailedHistories(cfg, Play(cfg, start, attempts), a);
  }

  lemma FailureLocks(cfg: Config, start: real, attempts: seq<Attempt>, a: Attempt, r: Run, r': Run)
    requires r == Play(cfg, start, attempts) && r' == Play(cfg, start, attempts + [a]) && Free(r, a) && !a.good
    ensures SourceLocked(cfg, r, r', a, |Get(r'.lim.failures, a.key, [])|)
    ensures AllLocked(cfg, r, r', a, |r'.lim.globalEvents|)
    ensures forall key :: key != a.key ==> SameFor(r, r', key)
  {
    PlayAppend(cfg, start, attempts, a);
    FailedLocks(cfg, r, a);
  }

  /** A recorded failure, after any run: counted over the full histories, the lockout of its source
      is exactly the exponential one past the threshold and unchanged below it, the global one is
      exactly base past its threshold and unchanged below; no other source is touched. */
  lemma FailureLocksExactly(cfg: Config, start: real, attempts: seq<Attempt>, a: Attempt, r: Run, r': Run)
    requires WellTimed(start, attempts + [a]) && r == Play(cfg, start, attempts)
              && r' == Play(cfg, start, attempts + [a])
    requires Free(r, a) && !a.good
    ensures SourceLocked(cfg, r, r', a, |Recent(Get(r.since, a.key, []) + [a.answeredAt], a.answeredAt - cfg.window)|)
    ensures AllLocked(cfg, r, r', a, |Recent(r.all + [a.answeredAt], a.answeredAt - cfg.window)|)
    ensures forall key :: key != a.key ==> SameFor(r, r', key)
  {
    FailureIsRecorded(cfg, start, attempts, a);
    CountsAreFull(cfg, a, r, r');
    FailureLocks(cfg, start, attempts, a, r, r');
  }

  /** No successful login of `key` among these. */
  ghost predicate NoSuccess(later: seq<Attempt>, key: string) {
    forall i :: 0 <= i < |later| ==> !(later[i].good && later[i].key == key)
  }

  /** The lockouts that concern `key` end no earlier in `r'` than in `r`. */
  ghost predicate NoEarlier(r: Run, r': Run, key: string) {
    && Get(r.lim.lockedUntil, key, 0.0) <= Get(r'.lim.lockedUntil, key, 0.0)
    && r.lim.globalLockedUntil <= r'.lim.globalLockedUntil
    && BlockedUntil(r.lim, key) <= BlockedUntil(r'.lim, key)
  }

  lemma LoginNoEarlier(cfg: Config, r: Run, a: Attempt, key: string)
    requires cfg.baseLockout >= 0.0 && cfg.maxLockout >= 0.0 && a.checkedAt <= a.answeredAt
    requires !(a.good && a.key == key)
    ensures NoEarlier(r, Login(cfg, r, a), key)
  {
  }

  /** However the run goes on, until a success of that source neither its own lockout nor the
      global one ever moves to an earlier time. */
  lemma {:induction false} LockoutNeverShortens(cfg: Config, start: real, attempts: seq<Attempt>,
                                                later: seq<Attempt>, key: string)
    requires WellTimed(start, attempts + later) && NoSuccess(later, key)
    requires cfg.baseLockout >= 0.0 && cfg.maxLockout >= 0.0
    ensures NoEarlier(Play(cfg, start, attempts), Play(cfg, start, attempts + later), key)
    decreases |later|
  {
    if later == [] {
      assert attempts + later == attempts;
    } else {
      var before, a := later[..|later| - 1], later[|later| - 1];
      assert (attempts + later)[..|attempts + later| - 1] == attempts + before;
      LockoutNeverShortens(cfg, start, attempts, before, key);
      LoginNoEarlier(cfg, Play(cfg, start, attempts + before), a, key);
    }
  }
}
