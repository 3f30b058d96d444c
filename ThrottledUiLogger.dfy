/**
 * The in-process logger of the demo: four levels, per-key throttling that
 * keeps a noisy message from flooding the log box, and a UI sink that
 * receives the formatted lines.
 *
 * Time is passed in: `now` is the call's UTC tick count (100 ns ticks) and
 * `clock` the local "HH:mm:ss" text that heads the line. The sink is
 * modelled by whether one is bound and by the lines it has received.
 */
module Diagnostics {
  import opened Wrappers
  import opened Models

  /** The enum member's name, as string interpolation writes it. */
  function LevelName(level: LogLevel): (n: string)
    ensures |n| > 0 && forall i :: 0 <= i < |n| ==> n[i] != ':'
  {
    match level
    case Debug => "Debug"
    case Info => "Info"
    case Warn => "Warn"
    case Error => "Error"
  }

  const TICKS_PER_MILLISECOND: int := 10000

  /** The default intervals of the level wrappers, in milliseconds. */
  const DEBUG_INTERVAL_MS: int := 0
  const INFO_INTERVAL_MS: int := 0
  const WARN_INTERVAL_MS: int := 2000
  const ERROR_INTERVAL_MS: int := 1000

  /** The throttle key: the caller's key, or "level:category:message". */
  function ThrottleKey(level: LogLevel, category: string, message: string, throttleKey: Option<string>): string {
    match throttleKey
    case Some(k) => k
    case None => LevelName(level) + ":" + category + ":" + message
  }

  /**
   * Whether a call is let through: always without a positive interval;
   * otherwise unless the key's last recorded tick count is non-zero and less
   * than the interval ago. A key never seen reads as tick count 0.
   */
  function Emits(ticks: map<string, int>, key: string, now: int, minIntervalMs: int): bool {
    var last := if key in ticks then ticks[key] else 0;
    minIntervalMs <= 0 || !(last != 0 && now - last < minIntervalMs * TICKS_PER_MILLISECOND)
  }

  /** The timestamp map after the call: `now` is recorded for a throttled call that is let through. */
  function Recorded(ticks: map<string, int>, key: string, now: int, minIntervalMs: int): map<string, int> {
    if minIntervalMs > 0 && Emits(ticks, key, now, minIntervalMs) then ticks[key := now] else ticks
  }

  /** The line handed to the sink: "[HH:mm:ss][level][category] message". */
  function FormatLine(clock: string, level: LogLevel, category: string, message: string): string {
    "[" + clock + "][" + LevelName(level) + "][" + category + "] " + message
  }

  // ---------------------------------------------------------------------
  // Properties of the throttle
  // ---------------------------------------------------------------------

  /** Without a positive interval every call is let through and nothing is recorded. */
  lemma NoIntervalNoThrottle(ticks: map<string, int>, key: string, now: int, minIntervalMs: int)
    requires minIntervalMs <= 0
    ensures Emits(ticks, key, now, minIntervalMs)
    ensures Recorded(ticks, key, now, minIntervalMs) == ticks
  {
  }

  /** The first throttled call of a key is let through and records `now` for it. */
  lemma FirstCallEmits(ticks: map<string, int>, key: string, now: int, minIntervalMs: int)
    requires key !in ticks && minIntervalMs > 0
    ensures Emits(ticks, key, now, minIntervalMs)
    ensures Recorded(ticks, key, now, minIntervalMs) == ticks[key := now]
  {
  }

  /**
   * A throttled call is suppressed exactly when the key was let through at a
   * non-zero tick count less than the interval ago; a suppressed call
   * records nothing.
   */
  lemma SuppressedIff(ticks: map<string, int>, key: string, now: int, minIntervalMs: int)
    requires minIntervalMs > 0
    ensures !Emits(ticks, key, now, minIntervalMs) <==>
      key in ticks && ticks[key] != 0 && now - ticks[key] < minIntervalMs * TICKS_PER_MILLISECOND
    ensures !Emits(ticks, key, now, minIntervalMs) ==> Recorded(ticks, key, now, minIntervalMs) == ticks
  {
  }

  /** A call touches only its own key's timestamp. */
  lemma OtherKeysUntouched(ticks: map<string, int>, key: string, now: int, minIntervalMs: int, other: string)
    requires other != key
    ensures other in Recorded(ticks, key, now, minIntervalMs) <==> other in ticks
    ensures other in ticks ==> Recorded(ticks, key, now, minIntervalMs)[other] == ticks[other]
  {
  }

  /** Whether a call on one key is let through does not depend on calls on other keys. */
  lemma KeysThrottleIndependently(ticks: map<string, int>, key: string, now: int, minIntervalMs: int,
                                  other: string, later: int, otherIntervalMs: int)
    requires other != key
    ensures Emits(Recorded(ticks, key, now, minIntervalMs), other, later, otherIntervalMs) ==
      Emits(ticks, other, later, otherIntervalMs)
  {
    OtherKeysUntouched(ticks, key, now, minIntervalMs, other);
  }

  /**
   * Two calls on one key: after a throttled call let through at a non-zero
   * tick count `now`, a call at `later` is let through exactly when at least
   * its interval has passed.
   */
  lemma RepeatWithinInterval(ticks: map<string, int>, key: string, now: int, minIntervalMs: int, later: int, nextIntervalMs: int)
    requires minIntervalMs > 0 && now != 0 && Emits(ticks, key, now, minIntervalMs)
    requires nextIntervalMs > 0
    ensures Emits(Recorded(ticks, key, now, minIntervalMs), key, later, nextIntervalMs) <==>
      later - now >= nextIntervalMs * TICKS_PER_MILLISECOND
  {
  }

  /** Default keys tell level, category and message apart when the category holds no ':'. */
  lemma DefaultKeyInjective(l1: LogLevel, c1: string, m1: string, l2: LogLevel, c2: string, m2: string)
    requires forall i :: 0 <= i < |c1| ==> c1[i] != ':'
    requires forall i :: 0 <= i < |c2| ==> c2[i] != ':'
    requires ThrottleKey(l1, c1, m1, None) == ThrottleKey(l2, c2, m2, None)
    ensures l1 == l2 && c1 == c2 && m1 == m2
  {
    var n1, n2 := LevelName(l1), LevelName(l2);
    assert n1 + ":" + c1 + ":" + m1 == n1 + ":" + (c1 + ":" + m1);
    assert n2 + ":" + c2 + ":" + m2 == n2 + ":" + (c2 + ":" + m2);
    SplitAtFirstColon(n1, c1 + ":" + m1, n2, c2 + ":" + m2);
    SplitAtFirstColon(c1, m1, c2, m2);
    match l1 case Debug => case Info => case Warn => case Error =>
  }

  /** `a:x == b:y` with no ':' in `a` or `b` splits into `a == b` and `x == y`. */
  lemma SplitAtFirstColon(a: string, x: string, b: string, y: string)
    requires forall i :: 0 <= i < |a| ==> a[i] != ':'
    requires forall i :: 0 <= i < |b| ==> b[i] != ':'
    requires a + ":" + x == b + ":" + y
    ensures a == b && x == y
  {
    var s := a + ":" + x;
    ColonAfter(a, x);
    ColonAfter(b, y);
    assert |a| == |b|;
    assert a == s[..|a|] && b == (b + ":" + y)[..|b|];
    assert x == s[|a| + 1..] && y == (b + ":" + y)[|b| + 1..];
  }

  /** In `a:x` with no ':' in `a`, the first ':' is the one after `a`. */
  lemma ColonAfter(a: string, x: string)
    requires forall i :: 0 <= i < |a| ==> a[i] != ':'
    ensures forall i :: 0 <= i < |a| ==> (a + ":" + x)[i] != ':'
    ensures (a + ":" + x)[|a|] == ':'
  {
  }

  // ---------------------------------------------------------------------
  // The logger
  // ---------------------------------------------------------------------

  class ThrottledUiLogger {
    var lastTicksByKey: map<string, int>
    var sinkBound: bool
    var delivered: seq<string>   // the lines handed to the UI sink, in order

    constructor()
      ensures lastTicksByKey == map[] && !sinkBound && delivered == []
    {
      lastTicksByKey := map[];
      sinkBound := false;
      delivered := [];
    }

    /** BindUiSink: later lines go to the sink. */
    method BindUiSink()
      modifies this
      ensures sinkBound && lastTicksByKey == old(lastTicksByKey) && delivered == old(delivered)
    {
      sinkBound := true;
    }

    /** Log: the throttle decision, the timestamp update, and the line handed to the sink. */
    method Log(level: LogLevel, category: string, message: string, throttleKey: Option<string>,
               minIntervalMs: int, now: int, clock: string) returns (emitted: bool)
      modifies this
      ensures var key := ThrottleKey(level, category, message, throttleKey);
        emitted == Emits(old(lastTicksByKey), key, now, minIntervalMs) &&
        lastTicksByKey == Recorded(old(lastTicksByKey), key, now, minIntervalMs)
      ensures delivered == if emitted && sinkBound then old(delivered) + [FormatLine(clock, level, category, message)]
        else old(delivered)
      ensures sinkBound == old(sinkBound)
    {
      var key := match throttleKey case Some(k) => k case None => LevelName(level) + ":" + category + ":" + message;
      if minIntervalMs > 0 {
        if key !in lastTicksByKey {
          lastTicksByKey := lastTicksByKey[key := 0];
        }
        var last := lastTicksByKey[key];
        var minTicks := minIntervalMs * TICKS_PER_MILLISECOND;
        if last != 0 && now - last < minTicks {
          return false;
        }
        lastTicksByKey := lastTicksByKey[key := now];
      }
      var line := "[" + clock + "][" + LevelName(level) + "][" + category + "] " + message;
      if sinkBound {
        delivered := delivered + [line];
      }
      return true;
    }

    method LogDebug(category: string, message: string, now: int, clock: string,
                    throttleKey: Option<string> := None, minIntervalMs: int := DEBUG_INTERVAL_MS) returns (emitted: bool)
      modifies this
      ensures var key := ThrottleKey(Debug, category, message, throttleKey);
        emitted == Emits(old(lastTicksByKey), key, now, minIntervalMs) &&
        lastTicksByKey == Recorded(old(lastTicksByKey), key, now, minIntervalMs)
      ensures delivered == if emitted && sinkBound then old(delivered) + [FormatLine(clock, Debug, category, message)]
        else old(delivered)
      ensures sinkBound == old(sinkBound)
    {
      emitted := Log(Debug, category, message, throttleKey, minIntervalMs, now, clock);
    }

    method LogInfo(category: string, message: string, now: int, clock: string,
                   throttleKey: Option<string> := None, minIntervalMs: int := INFO_INTERVAL_MS) returns (emitted: bool)
      modifies this
      ensures var key := ThrottleKey(Info, category, message, throttleKey);
        emitted == Emits(old(lastTicksByKey), key, now, minIntervalMs) &&
        lastTicksByKey == Recorded(old(lastTicksByKey), key, now, minIntervalMs)
      ensures delivered == if emitted && sinkBound then old(delivered) + [FormatLine(clock, Info, category, message)]
        else old(delivered)
      ensures sinkBound == old(sinkBound)
    {
      emitted := Log(Info, category, message, throttleKey, minIntervalMs, now, clock);
    }

    method LogWarn(category: string, message: string, now: int, clock: string,
                   throttleKey: Option<string> := None, minIntervalMs: int := WARN_INTERVAL_MS) returns (emitted: bool)
      modifies this
      ensures var key := ThrottleKey(Warn, category, message, throttleKey);
        emitted == Emits(old(lastTicksByKey), key, now, minIntervalMs) &&
        lastTicksByKey == Recorded(old(lastTicksByKey), key, now, minIntervalMs)
      ensures delivered == if emitted && sinkBound then old(delivered) + [FormatLine(clock, Warn, category, message)]
        else old(delivered)
      ensures sinkBound == old(sinkBound)
    {
      emitted := Log(Warn, category, message, throttleKey, minIntervalMs, now, clock);
    }

    method LogError(category: string, message: string, now: int, clock: string,
                    throttleKey: Option<string> := None, minIntervalMs: int := ERROR_INTERVAL_MS) returns (emitted: bool)
      modifies this
      ensures var key := ThrottleKey(Error, category, message, throttleKey);
        emitted == Emits(old(lastTicksByKey), key, now, minIntervalMs) &&
        lastTicksByKey == Recorded(old(lastTicksByKey), key, now, minIntervalMs)
      ensures delivered == if emitted && sinkBound then old(delivered) + [FormatLine(clock, Error, category, message)]
        else old(delivered)
      ensures sinkBound == old(sinkBound)
    {
      emitted := Log(Error, category, message, throttleKey, minIntervalMs, now, clock);
    }
  }

  /**
   * With the default intervals, a Warn or an Error repeated on one key
   * within two seconds (respectively one) of a Warn or Error let through is
   * suppressed, while Debug and Info are never throttled.
   */
  lemma DefaultIntervals(ticks: map<string, int>, key: string, now: int, later: int)
    requires now != 0
    ensures Emits(ticks, key, later, DEBUG_INTERVAL_MS) && Emits(ticks, key, later, INFO_INTERVAL_MS)
    ensures Emits(ticks, key, now, WARN_INTERVAL_MS) && 0 <= later - now < 20_000_000 ==>
      !Emits(Recorded(ticks, key, now, WARN_INTERVAL_MS), key, later, WARN_INTERVAL_MS)
    ensures Emits(ticks, key, now, ERROR_INTERVAL_MS) && 0 <= later - now < 10_000_000 ==>
      !Emits(Recorded(ticks, key, now, ERROR_INTERVAL_MS), key, later, ERROR_INTERVAL_MS)
  {
  }
}
