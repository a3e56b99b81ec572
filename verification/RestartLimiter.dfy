/**
 The restart limiter: a pruned list of timestamps that must stand in for the full history.

 Times are instants in nanoseconds. The backoff formula is taken over the reals, without the
 rounding, infinities and NaNs of floating point.
 */
module RestartLimiter {
  import opened Wrappers
  import Deadlines

  type Instant = Deadlines.Instant

  const I32_MAX := 0x7fff_ffff

  datatype Config = Config(
    enabled: bool,
    maxRestarts: nat,
    windowSecs: nat,
    initialBackoffMs: nat,
    maxBackoffMs: nat,
    backoffMultiplier: real
  )

  datatype RestartLimitExceeded = RestartLimitExceeded(attempts: nat, maxRestarts: nat, windowSecs: nat)

  function Window(c: Config): nat { c.windowSecs * Deadlines.NANOS }

  /** The entries younger than `window` at `now`, in order. */
  ghost function Within(stamps: seq<Instant>, now: Instant, window: nat): seq<Instant> {
    if stamps == [] then []
    else
      var n := |stamps| - 1;
      Within(stamps[..n], now, window) + if Deadlines.SinceOrZero(now, stamps[n]) < window then [stamps[n]] else []
  }

  // ----- backoff -----

  ghost function Pow(b: real, n: nat): real {
    if n == 0 then 1.0 else b * Pow(b, n - 1)
  }

  ghost function Capped(ms: real, max: nat): nat {
    var capped := if ms < max as real then ms else max as real;
    if capped < 0.0 then 0 else capped.Floor
  }

  ghost function Exponent(consecutive: nat): nat {
    if consecutive <= I32_MAX then consecutive else I32_MAX
  }

  ghost function Uncapped(c: Config, exponent: nat): real {
    c.initialBackoffMs as real * Pow(c.backoffMultiplier, exponent)
  }

  ghost function Backoff(c: Config, consecutive: nat): nat {
    Capped(Uncapped(c, Exponent(consecutive)), c.maxBackoffMs)
  }

  lemma CappedGrows(x: real, y: real, max: nat)
    ensures Capped(x, max) <= max
    ensures x <= y ==> Capped(x, max) <= Capped(y, max)
  {
  }

  lemma ScaledGrows(a: real, x: real, y: real)
    requires a >= 0.0 && x <= y
    ensures a * x <= a * y
  {
  }

  lemma {:induction false} PowGrows(b: real, m: nat, n: nat)
    requires b >= 1.0 && m <= n
    ensures 1.0 <= Pow(b, m) <= Pow(b, n)
    decreases n
  {
    if m < n {
      PowGrows(b, m, n - 1);
      assert b * Pow(b, n - 1) >= Pow(b, n - 1);
    } else if n > 0 {
      PowGrows(b, n - 1, n - 1);
      assert b * Pow(b, n - 1) >= Pow(b, n - 1);
    }
  }

  /** A multiplier of at least one never shortens the wait, and the cap always holds. */
  lemma BackoffGrowsToItsCap(c: Config, m: nat, n: nat)
    requires m <= n
    ensures Backoff(c, n) <= c.maxBackoffMs
    ensures c.backoffMultiplier >= 1.0 ==> Backoff(c, m) <= Backoff(c, n)
    ensures Backoff(c, 0) == if c.initialBackoffMs < c.maxBackoffMs then c.initialBackoffMs else c.maxBackoffMs
  {
    hide Uncapped, Pow;
    var i, j := Exponent(m), Exponent(n);
    CappedGrows(Uncapped(c, i), Uncapped(c, j), c.maxBackoffMs);
    CappedGrows(Uncapped(c, j), Uncapped(c, j), c.maxBackoffMs);
    if c.backoffMultiplier >= 1.0 {
      UncappedGrows(c, i, j);
    }
    FirstBackoff(c);
  }

  lemma UncappedGrows(c: Config, i: nat, j: nat)
    requires c.backoffMultiplier >= 1.0 && i <= j
    ensures Uncapped(c, i) <= Uncapped(c, j)
  {
    PowGrows(c.backoffMultiplier, i, j);
    ScaledGrows(c.initialBackoffMs as real, Pow(c.backoffMultiplier, i), Pow(c.backoffMultiplier, j));
  }

  lemma FirstBackoff(c: Config)
    ensures Backoff(c, 0) == if c.initialBackoffMs < c.maxBackoffMs then c.initialBackoffMs else c.maxBackoffMs
  {
    assert Pow(c.backoffMultiplier, 0) == 1.0;
    assert c.initialBackoffMs as real * 1.0 == c.initialBackoffMs as real;
  }

  /** The first wait lengthened by the multiplier once for each of `factors` failures. */
  ghost function Lengthened(c: Config, factors: nat): real {
    if factors == 0 then c.initialBackoffMs as real else Lengthened(c, factors - 1) * c.backoffMultiplier
  }

  /**
   `wait` is right after `failures` restarts in a row: the whole milliseconds in the smaller of the cap
   and the lengthened wait, and none if that is negative. (The exponent is a 32-bit integer.)
   */
  ghost predicate RightWait(c: Config, failures: nat, wait: nat) {
    var lengthened := Lengthened(c, if failures <= 0x7fff_ffff then failures else 0x7fff_ffff);
    var x := if lengthened < c.maxBackoffMs as real then lengthened else c.maxBackoffMs as real;
    if x < 0.0 then wait == 0 else wait as real <= x < wait as real + 1.0
  }

  lemma {:induction false} LengthenedIsThePower(c: Config, n: nat)
    ensures Lengthened(c, n) == Uncapped(c, n)
  {
    var a, b := c.initialBackoffMs as real, c.backoffMultiplier;
    if n == 0 {
      TimesOne(a);
    } else {
      LengthenedIsThePower(c, n - 1);
      Regroup(a, Pow(b, n - 1), b);
    }
  }

  lemma TimesOne(a: real)
    ensures a * 1.0 == a
  {
  }

  lemma Regroup(a: real, x: real, b: real)
    ensures (a * x) * b == a * (b * x)
  {
  }

  /** The formula gives the right wait. */
  lemma BackoffIsRight(c: Config, failures: nat)
    ensures RightWait(c, failures, Backoff(c, failures))
  {
    hide Uncapped, Lengthened;
    LengthenedIsThePower(c, Exponent(failures));
  }

  // ----- what each call does -----

  datatype Call = CanRestart(at: Instant) | RecordRestart(at: Instant) | ResetConsecutive

  /** What a limiter holds. */
  datatype Kept = Kept(stamps: seq<Instant>, consecutive: nat)

  ghost function Called(c: Config, k: Kept, call: Call): Kept {
    match call
    case CanRestart(at) => if c.enabled then k.(stamps := Within(k.stamps, at, Window(c))) else k
    case RecordRestart(at) => Kept(k.stamps + [at], k.consecutive + 1)
    case ResetConsecutive => k.(consecutive := 0)
  }

  ghost predicate Allows(c: Config, k: Kept) {
    !c.enabled || |k.stamps| < c.maxRestarts
  }

  // ----- the limiter, in place -----

  class Limiter {
    const config: Config
    var restartTimestamps: seq<Instant>
    var consecutiveRestarts: nat

    ghost function State(): Kept
      reads this
    {
      Kept(restartTimestamps, consecutiveRestarts)
    }

    constructor (config: Config)
      ensures this.config == config && State() == Kept([], 0)
    {
      this.config := config;
      restartTimestamps, consecutiveRestarts := [], 0;
    }

    method PruneExpired(now: Instant)
      modifies this
      ensures State() == old(State()).(stamps := Within(old(restartTimestamps), now, Window(config)))
    {
      var kept := [];
      var i := 0;
      while i < |restartTimestamps|
        invariant 0 <= i <= |restartTimestamps|
        invariant restartTimestamps == old(restartTimestamps)
        invariant kept == Within(restartTimestamps[..i], now, Window(config))
      {
        assert restartTimestamps[..i + 1][..i] == restartTimestamps[..i];
        if Deadlines.SinceOrZero(now, restartTimestamps[i]) < Window(config) {
          kept := kept + [restartTimestamps[i]];
        }
        i := i + 1;
      }
      assert restartTimestamps[..i] == restartTimestamps;
      restartTimestamps := kept;
    }

    method CanRestart(now: Instant) returns (answer: Result<(), RestartLimitExceeded>)
      modifies this
      ensures State() == Called(config, old(State()), Call.CanRestart(now))
      ensures answer == if Allows(config, State()) then Ok(())
                        else Err(RestartLimitExceeded(|restartTimestamps|, config.maxRestarts, config.windowSecs))
    {
      if !config.enabled {
        return Ok(());
      }
      PruneExpired(now);
      if |restartTimestamps| >= config.maxRestarts {
        answer := Err(RestartLimitExceeded(|restartTimestamps|, config.maxRestarts, config.windowSecs));
      } else {
        answer := Ok(());
      }
    }

    /** Records a restart; the wait it calls for is `backoff`. */
    method RecordRestart(now: Instant) returns (ghost backoff: nat)
      modifies this
      ensures State() == Called(config, old(State()), Call.RecordRestart(now))
      ensures backoff == Backoff(config, old(consecutiveRestarts))
      ensures RightWait(config, old(consecutiveRestarts), backoff)
    {
      BackoffIsRight(config, consecutiveRestarts);
      restartTimestamps := restartTimestamps + [now];
      backoff := Backoff(config, consecutiveRestarts);
      consecutiveRestarts := consecutiveRestarts + 1;
    }

    method ResetConsecutive()
      modifies this
      ensures State() == Called(config, old(State()), Call.ResetConsecutive)
    {
      consecutiveRestarts := 0;
    }
  }

  // ----- a limiter in use -----

  /**
   `history` is every restart ever recorded, `lastPrune` the time of the last pruning check with
   `sincePrune` restarts recorded after it. `granted` is whether the last check allowed a restart not yet recorded,
   and `waits` is what each recording returned.
   */
  datatype Use = Use(
    config: Config,
    kept: Kept,
    history: seq<Instant>,
    now: Instant,
    lastPrune: Option<Instant>,
    sincePrune: nat,
    granted: bool,
    waits: seq<nat>
  )

  /** One call. The clock is monotone, so a call at an earlier time than the last does not happen. */
  ghost function After(u: Use, call: Call): Use {
    var kept := Called(u.config, u.kept, call);
    match call
    case CanRestart(at) =>
      if at < u.now then u
      else if !u.config.enabled then u.(kept := kept, now := at, granted := true)
      else u.(kept := kept, now := at, lastPrune := Some(at), sincePrune := 0, granted := Allows(u.config, kept))
    case RecordRestart(at) =>
      if at < u.now then u
      else u.(kept := kept, now := at, history := u.history + [at], sincePrune := u.sincePrune + 1, granted := false,
               waits := u.waits + [Backoff(u.config, u.kept.consecutive)])
    case ResetConsecutive => u.(kept := kept)
  }

  ghost function Fresh(config: Config, now: Instant): Use {
    Use(config, Kept([], 0), [], now, None, 0, false, [])
  }

  ghost function UseAll(u: Use, calls: seq<Call>): Use {
    if calls == [] then u else After(UseAll(u, calls[..|calls| - 1]), calls[|calls| - 1])
  }

  /** Every restart is recorded only after a check that allowed it. */
  ghost predicate Disciplined(u: Use, calls: seq<Call>) {
    calls == [] ||
    (Disciplined(u, calls[..|calls| - 1])
     && (calls[|calls| - 1].RecordRestart? ==> UseAll(u, calls[..|calls| - 1]).granted))
  }

  ghost predicate Sorted(s: seq<Instant>) {
    forall i, j | 0 <= i <= j < |s| :: s[i] <= s[j]
  }

  ghost predicate CutAt(s: seq<Instant>, now: Instant, window: nat, d: nat) {
    && d <= |s|
    && (forall i | 0 <= i < d :: now - s[i] >= window)
    && (forall i | d <= i < |s| :: Deadlines.SinceOrZero(now, s[i]) < window)
  }

  /** Entries outside the window followed by entries inside it: what is within is the tail. */
  lemma {:induction false} WithinIsTail(s: seq<Instant>, now: Instant, window: nat, d: nat)
    requires CutAt(s, now, window, d)
    ensures Within(s, now, window) == s[d..]
  {
    if s != [] {
      var n := |s| - 1;
      CutShorter(s, now, window, d);
      if d <= n {
        WithinIsTail(s[..n], now, window, d);
        assert s[d..] == s[..n][d..] + [s[n]];
      } else {
        WithinIsTail(s[..n], now, window, n);
        assert s[..n][n..] == [] == s[d..];
      }
    }
  }

  lemma CutShorter(s: seq<Instant>, now: Instant, window: nat, d: nat)
    requires s != [] && CutAt(s, now, window, d)
    ensures var n := |s| - 1;
      CutAt(s[..n], now, window, if d <= n then d else n) && (Deadlines.SinceOrZero(now, s[n]) < window <==> d <= n)
  {
  }

  /** A sorted list has such a cut. */
  lemma {:induction false} CutExists(s: seq<Instant>, now: Instant, window: nat) returns (d: nat)
    requires Sorted(s) && (forall i | 0 <= i < |s| :: s[i] <= now)
    ensures CutAt(s, now, window, d)
  {
    d := |s|;
    while d > 0 && now - s[d - 1] < window
      invariant d <= |s|
      invariant forall i | d <= i < |s| :: Deadlines.SinceOrZero(now, s[i]) < window
    {
      d := d - 1;
    }
  }

  /** The stamps are the tail of the history left after `|history| - |stamps|` entries fell out of the window. */
  ghost predicate UseInv(u: Use) {
    && Sorted(u.history) && (forall i | 0 <= i < |u.history| :: u.history[i] <= u.now)
    && u.sincePrune <= |u.kept.stamps| <= |u.history|
    && var d := |u.history| - |u.kept.stamps|;
       && u.kept.stamps == u.history[d..]
       && (match u.lastPrune
           case None => d == 0 && u.sincePrune == |u.history|
           case Some(at) =>
             at <= u.now && CutAt(u.history[..|u.history| - u.sincePrune], at, Window(u.config), d))
       && (u.granted && u.config.enabled ==>
             u.lastPrune.Some? && u.sincePrune == 0 && |u.kept.stamps| < u.config.maxRestarts)
  }

  /** Pruning the tail of a history at a later time leaves a shorter tail, cut by the same window. */
  lemma PruneAgain(history: seq<Instant>, d: nat, k: nat, was: Instant, now: Instant, w: nat) returns (e: nat)
    requires Sorted(history) && d <= k <= |history| && was <= now && (forall i | 0 <= i < |history| :: history[i] <= now)
    requires d > 0 ==> CutAt(history[..k], was, w, d)
    ensures d <= e && CutAt(history, now, w, e) && Within(history[d..], now, w) == history[e..]
  {
    var stamps := history[d..];
    var f := CutExists(stamps, now, w);
    WithinIsTail(stamps, now, w, f);
    e := d + f;
    assert stamps[f..] == history[e..];
    forall i | 0 <= i < e ensures now - history[i] >= w {
      if i < d {
        assert history[i] == history[..k][i];
      } else {
        assert history[i] == stamps[i - d];
      }
    }
    forall i | e <= i < |history| ensures Deadlines.SinceOrZero(now, history[i]) < w {
      assert history[i] == stamps[i - d];
    }
  }

  lemma PruneKeepsInv(u: Use, at: Instant)
    requires UseInv(u) && at >= u.now && u.config.enabled
    ensures UseInv(After(u, CanRestart(at)))
  {
    hide Within, CutAt;
    var d, n := |u.history| - |u.kept.stamps|, |u.history|;
    var was := if u.lastPrune.Some? then u.lastPrune.value else at;
    var e := PruneAgain(u.history, d, n - u.sincePrune, was, at, Window(u.config));
    assert u.history[..n] == u.history;
    CutBound(u.history, at, Window(u.config), e);
  }

  lemma CutBound(s: seq<Instant>, now: Instant, window: nat, d: nat)
    ensures CutAt(s, now, window, d) ==> d <= |s|
  {
  }

  lemma RecordKeepsInv(u: Use, at: Instant)
    requires UseInv(u) && at >= u.now
    ensures UseInv(After(u, RecordRestart(at)))
  {
    hide CutAt;
    var d, k := |u.history| - |u.kept.stamps|, |u.history| - u.sincePrune;
    assert (u.history + [at])[d..] == u.history[d..] + [at];
    assert (u.history + [at])[..k] == u.history[..k];
  }

  lemma CallKeepsInv(u: Use, call: Call)
    requires UseInv(u)
    ensures UseInv(After(u, call)) && After(u, call).config == u.config
  {
    hide Within, CutAt, Sorted;
    match call
    case CanRestart(at) =>
      if at >= u.now {
        if u.config.enabled { PruneKeepsInv(u, at); } else { IdleKeepsInv(u, at); }
      }
    case RecordRestart(at) => if at >= u.now { RecordKeepsInv(u, at); }
    case ResetConsecutive =>
  }

  lemma IdleKeepsInv(u: Use, at: Instant)
    requires UseInv(u) && at >= u.now && !u.config.enabled
    ensures UseInv(u.(now := at, granted := true))
  {
    hide CutAt, Sorted;
  }

  lemma {:induction false} UseKeepsInv(config: Config, now: Instant, calls: seq<Call>)
    ensures UseInv(UseAll(Fresh(config, now), calls)) && UseAll(Fresh(config, now), calls).config == config
  {
    if calls != [] {
      UseKeepsInv(config, now, calls[..|calls| - 1]);
      CallKeepsInv(UseAll(Fresh(config, now), calls[..|calls| - 1]), calls[|calls| - 1]);
    }
  }

  // ----- the results -----

  /**
   The list kept is the part of the full history inside the window at the last prune, followed by
   everything recorded since, whatever calls were made in whatever order.
   */
  lemma KeepsWhatTheWindowHolds(config: Config, now: Instant, calls: seq<Call>)
    ensures var u := UseAll(Fresh(config, now), calls);
      && u.sincePrune <= |u.history|
      && var k := |u.history| - u.sincePrune;
         u.kept.stamps == (match u.lastPrune
                      case None => u.history
                      case Some(at) => Within(u.history[..k], at, Window(config)) + u.history[k..])
  {
    UseKeepsInv(config, now, calls);
    var u := UseAll(Fresh(config, now), calls);
    if u.lastPrune.Some? {
      var k := |u.history| - u.sincePrune;
      var d := |u.history| - |u.kept.stamps|;
      WithinIsTail(u.history[..k], u.lastPrune.value, Window(config), d);
      assert u.history[..k][d..] + u.history[k..] == u.history[d..];
    }
  }

  /**
   The check, which sees only the pruned list, decides by the full history: a restart is allowed
   exactly when fewer than the maximum of all restarts ever recorded lie within the window.
   */
  lemma DecidesByTheFullHistory(config: Config, now: Instant, calls: seq<Call>, at: Instant)
    requires config.enabled && at >= UseAll(Fresh(config, now), calls).now
    ensures var u := UseAll(Fresh(config, now), calls);
      && After(u, CanRestart(at)).kept.stamps == Within(u.history, at, Window(config))
      && (After(u, CanRestart(at)).granted <==> |Within(u.history, at, Window(config))| < config.maxRestarts)
  {
    hide Within, UseInv, Window;
    var u, c := UseAll(Fresh(config, now), calls), CanRestart(at);
    UseKeepsInv(config, now, calls);
    UseSnoc(config, now, calls, c);
    KeepsWhatTheWindowHolds(config, now, calls + [c]);
    var t := After(u, c);
    assert t.history[..|t.history|] == t.history && t.history[|t.history|..] == [];
  }

  lemma UseSnoc(config: Config, now: Instant, calls: seq<Call>, c: Call)
    ensures UseAll(Fresh(config, now), calls + [c]) == After(UseAll(Fresh(config, now), calls), c)
  {
    assert (calls + [c])[..|calls|] == calls;
  }

  ghost predicate Spread(history: seq<Instant>, max: nat, window: nat) {
    forall i | 0 <= i && i + max < |history| :: history[i + max] - history[i] >= window
  }

  /**
   The sliding-window guarantee. If every restart follows a check that allowed it, then in the
   full history any restart and the one `maxRestarts` places after it are a whole window apart.
   */
  lemma {:induction false} RestartsAreSpread(config: Config, now: Instant, calls: seq<Call>)
    requires config.enabled && Disciplined(Fresh(config, now), calls)
    ensures Spread(UseAll(Fresh(config, now), calls).history, config.maxRestarts, Window(config))
  {
    if calls != [] {
      var before, call := calls[..|calls| - 1], calls[|calls| - 1];
      var u := UseAll(Fresh(config, now), before);
      RestartsAreSpread(config, now, before);
      UseKeepsInv(config, now, before);
      if call.RecordRestart? && call.at >= u.now {
        var n := |u.history|;
        if n >= config.maxRestarts {
          assert u.lastPrune.value - u.history[..n][n - config.maxRestarts] >= Window(config);
        }
      }
    }
  }

  // ----- how long each restart waits -----

  /** The latest time among the calls, which is when the next may be made. */
  ghost function ClockAfter(start: Instant, calls: seq<Call>): Instant {
    if calls == [] then start
    else
      var was, last := ClockAfter(start, calls[..|calls| - 1]), calls[|calls| - 1];
      if last.ResetConsecutive? || last.at < was then was else last.at
  }

  /** The last call records a restart, at a time that can be. */
  ghost predicate Restarts(start: Instant, calls: seq<Call>) {
    && calls != [] && calls[|calls| - 1].RecordRestart?
    && calls[|calls| - 1].at >= ClockAfter(start, calls[..|calls| - 1])
  }

  /** The restarts recorded since the last reset. */
  ghost function InARow(start: Instant, calls: seq<Call>): nat {
    if calls == [] || calls[|calls| - 1].ResetConsecutive? then 0
    else InARow(start, calls[..|calls| - 1]) + if Restarts(start, calls) then 1 else 0
  }

  lemma {:induction false} CountsTheRow(config: Config, start: Instant, calls: seq<Call>)
    ensures var u := UseAll(Fresh(config, start), calls);
      u.now == ClockAfter(start, calls) && u.kept.consecutive == InARow(start, calls) && u.config == config
  {
    hide Within, Backoff;
    if calls != [] {
      CountsTheRow(config, start, calls[..|calls| - 1]);
    }
  }

  /**
   The wait before each restart, over any calls: a restart that follows `n` others since the last
   reset waits the first wait lengthened `n` times, up to the cap. No other call returns a wait.
   */
  lemma EachRestartWaitsItsTurn(config: Config, start: Instant, calls: seq<Call>)
    requires calls != []
    ensures var before := calls[..|calls| - 1];
      var was, now := UseAll(Fresh(config, start), before).waits, UseAll(Fresh(config, start), calls).waits;
      if Restarts(start, calls) then
        |now| == |was| + 1 && was <= now && RightWait(config, InARow(start, before), now[|was|])
      else now == was
  {
    hide Within, Backoff, RightWait;
    var before := calls[..|calls| - 1];
    CountsTheRow(config, start, before);
    BackoffIsRight(config, InARow(start, before));
  }
}
