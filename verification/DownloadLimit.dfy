/**
 The replica's download limit: one fixed window with a count, opened by the first
 call after the previous window ended.  Times and durations are in nanoseconds.
 */
module DownloadLimit {

  const SECOND: nat := 1_000_000_000
  /** The zero time, which marks a limiter that has opened no window. */
  const ZERO: int := 0

  datatype Config = Config(limit: int, window: int)

  predicate Enabled(c: Config) {
    c.limit > 0 && c.window > 0
  }

  datatype Gate = Gate(start: int, count: nat)

  const CLOSED := Gate(ZERO, 0)

  /** A call ends the window in force and opens a new one. */
  predicate Reopens(c: Config, g: Gate, now: int) {
    g.start == ZERO || now - g.start >= c.window
  }

  function Opened(c: Config, g: Gate, now: int): Gate {
    if Reopens(c, g, now) then Gate(now, 0) else g
  }

  predicate Admits(c: Config, g: Gate, now: int) {
    !Enabled(c) || Opened(c, g, now).count < c.limit
  }

  function After(c: Config, g: Gate, now: int): Gate {
    if !Enabled(c) then g
    else
      var o := Opened(c, g, now);
      if o.count >= c.limit then o else o.(count := o.count + 1)
  }

  class Limiter {
    const cfg: Config
    var windowStart: int
    var count: nat

    ghost function State(): Gate
      reads this
    {
      Gate(windowStart, count)
    }

    constructor (cfg: Config)
      ensures this.cfg == cfg && State() == CLOSED
    {
      this.cfg := cfg;
      windowStart, count := ZERO, 0;
    }

    /** Admit a call, or say how long the window still lasts. */
    method Allow(now: int) returns (wait: int, ok: bool)
      modifies this
      ensures State() == After(cfg, old(State()), now)
      ensures ok == Admits(cfg, old(State()), now)
      ensures ok ==> wait == 0
      ensures !ok ==> wait == State().start + cfg.window - now
    {
      if !Enabled(cfg) {
        return 0, true;
      }
      if windowStart == ZERO || now - windowStart >= cfg.window {
        windowStart, count := now, 0;
      }
      if count >= cfg.limit {
        return windowStart + cfg.window - now, false;
      }
      count := count + 1;
      return 0, true;
    }
  }

  // ----- whole traces -----

  predicate NonDecreasing(times: seq<int>) {
    forall i, j :: 0 <= i <= j < |times| ==> times[i] <= times[j]
  }

  /** The gate after a trace of calls. */
  function Run(c: Config, times: seq<int>): Gate {
    if times == [] then CLOSED else After(c, Run(c, times[..|times| - 1]), times[|times| - 1])
  }

  predicate Admitted(c: Config, times: seq<int>, i: nat)
    requires i < |times|
  {
    Admits(c, Run(c, times[..i]), times[i])
  }

  /** How many calls of the trace were admitted between two moments, both included. */
  function Between(c: Config, times: seq<int>, from: int, to: int): nat {
    if times == [] then 0
    else
      var n := |times| - 1;
      Between(c, times[..n], from, to) + if from <= times[n] <= to && Admitted(c, times, n) then 1 else 0
  }

  /** How many were admitted in the window opened at `start`. */
  function InWindow(c: Config, times: seq<int>, start: int): nat {
    if times == [] then 0
    else
      var n := |times| - 1;
      InWindow(c, times[..n], start) + if Run(c, times).start == start && Admitted(c, times, n) then 1 else 0
  }

  /** No window of the trace opens at the zero time; calls within a window may be made then. */
  predicate NoneAtZero(c: Config, times: seq<int>) {
    times != [] ==> Run(c, times).start != ZERO && NoneAtZero(c, times[..|times| - 1])
  }

  predicate Sane(c: Config, times: seq<int>) {
    Enabled(c) && NonDecreasing(times) && NoneAtZero(c, times)
  }

  lemma SanePrefix(c: Config, times: seq<int>)
    requires Sane(c, times) && times != []
    ensures Sane(c, times[..|times| - 1])
    ensures times[..|times| - 1] != [] ==> times[|times| - 2] <= times[|times| - 1]
  {
  }

  /** The gate's window is the one the last call fell into. */
  lemma {:induction false} GateIsCurrent(c: Config, times: seq<int>)
    requires Sane(c, times)
    ensures var g := Run(c, times);
            && g.count <= c.limit
            && (times == [] ==> g == CLOSED)
            && (times != [] ==> g.start != ZERO && g.start <= times[|times| - 1] < g.start + c.window)
  {
    if times != [] {
      SanePrefix(c, times);
      GateIsCurrent(c, times[..|times| - 1]);
    }
  }

  /** Within one window: never more than the limit, exactly the count while it is open,
      and none yet in a window later than the last call. */
  lemma {:induction false} WindowBound(c: Config, times: seq<int>, start: int)
    requires Sane(c, times)
    ensures InWindow(c, times, start) <= c.limit
    ensures start != ZERO && Run(c, times).start == start ==> InWindow(c, times, start) == Run(c, times).count
    ensures times == [] || times[|times| - 1] < start ==> InWindow(c, times, start) == 0
  {
    if times != [] {
      var before, now := times[..|times| - 1], times[|times| - 1];
      SanePrefix(c, times);
      WindowBound(c, before, start);
      GateIsCurrent(c, before);
      GateIsCurrent(c, times);
    }
  }

  /** How many calls between `from` and one window later were admitted, by where the
      gate's window starts: an interval of that length meets two windows at most. */
  lemma {:induction false} IntervalByWindow(c: Config, times: seq<int>, from: int)
    requires Sane(c, times)
    ensures var g, n := Run(c, times), Between(c, times, from, from + c.window);
            && (times == [] || times[|times| - 1] < from ==> n == 0)
            && (times != [] && g.start <= from ==> n <= g.count)
            && (times != [] && from < g.start <= from + c.window ==> n <= c.limit + g.count)
            && n <= 2 * c.limit
  {
    if times != [] {
      var before := times[..|times| - 1];
      SanePrefix(c, times);
      IntervalByWindow(c, before, from);
      GateIsCurrent(c, before);
      GateIsCurrent(c, times);
    }
  }

  /** No interval as long as the window, placed anywhere, admits more than twice the limit. */
  lemma IntervalBound(c: Config, times: seq<int>, from: int)
    requires Sane(c, times)
    ensures Between(c, times, from, from + c.window) <= 2 * c.limit
  {
    IntervalByWindow(c, times, from);
  }

  /** The wait in whole seconds that a denied caller is told. */
  function FloodWait(wait: int): int {
    var seconds := wait / SECOND + if wait % SECOND != 0 then 1 else 0;
    if seconds < 1 then 1 else seconds
  }

  /** What is left of the window when the last call of a trace is made. */
  function Remaining(c: Config, times: seq<int>): int
    requires times != []
  {
    Run(c, times).start + c.window - times[|times| - 1]
  }

  lemma DivMod(w: int, d: int)
    requires d > 0
    ensures w == w / d * d + w % d && 0 <= w % d < d
  {
  }

  /** The seconds told are never shorter than the wait. */
  lemma FloodWaitCovers(wait: int)
    requires wait >= 0
    ensures wait <= FloodWait(wait) * SECOND
  {
    DivMod(wait, SECOND);
  }

  /** A denial names a positive wait within the window, and a caller who waits as long
      as told, nobody calling meanwhile, is admitted. */
  lemma DenialIsHonest(c: Config, times: seq<int>, now: int)
    requires Sane(c, times + [now]) && !Admitted(c, times + [now], |times|)
    ensures 0 < Remaining(c, times + [now]) <= c.window
    ensures forall later :: later >= now + FloodWait(Remaining(c, times + [now])) * SECOND ==>
                              Admits(c, Run(c, times + [now]), later)
  {
    assert (times + [now])[..|times|] == times;
    GateIsCurrent(c, times + [now]);
    FloodWaitCovers(Remaining(c, times + [now]));
  }

  function Repeat(now: int, n: nat): (s: seq<int>)
    ensures |s| == n && forall i :: 0 <= i < n ==> s[i] == now
  {
    seq(n, i => now)
  }

  /** The zero time is the one moment at which the limiter forgets its window: of `n` calls
      made together it admits the limit at any other time, and all of them then. */
  lemma {:induction false} ForgetsOnlyAtZero(c: Config, now: int, n: nat)
    requires Enabled(c)
    ensures Between(c, Repeat(now, n), now, now) == if now != ZERO && n > c.limit then c.limit else n
    ensures n > 0 ==> Run(c, Repeat(now, n)) == Gate(now, if now == ZERO then 1 else if n > c.limit then c.limit else n)
  {
    if n > 0 {
      assert Repeat(now, n)[..n - 1] == Repeat(now, n - 1);
      ForgetsOnlyAtZero(c, now, n - 1);
    }
  }
}
