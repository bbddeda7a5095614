/**
 The bandwidth limiter: a window of bytes that is closed by sleeping or after a second, with millisecond
 truncation and a one-millisecond floor, and the throughput it guarantees over any sequence of calls.
 Times are in seconds; rounding of doubles is not modelled.
 */
module Bandwidth {

  const MS: real := 0.001
  const CHUNK_SIZE: nat := 65536

  datatype Limiter = Limiter(limit: nat, windowStart: real, windowBytes: nat)

  // One call: the bytes just sent and the clock readings on entry, after sleeping, and at the last reset.
  datatype Call = Call(bytes: nat, now: real, wake: real, later: real)

  function Elapsed(l: Limiter, now: real): real {
    if now - l.windowStart < MS then MS else now - l.windowStart
  }

  // The bytes the limit allows in a stretch of time.
  function Traffic(limit: nat, seconds: real): real { limit as real * seconds }

  // Milliseconds to sleep when the window holds `bytes`, truncated.
  function SleepMs(l: Limiter, bytes: nat, now: real): (ms: nat)
    requires l.limit > 0
  {
    var budget := Traffic(l.limit, Elapsed(l, now));
    if bytes as real > budget then
      assert (bytes as real - budget) / l.limit as real >= 0.0;
      ((bytes as real - budget) / l.limit as real * 1000.0).Floor
    else 0
  }

  // The clock does not run backwards, counts sleep, and a sleep lasts at least as long as asked.
  predicate Clocked(l: Limiter, c: Call) {
    && l.windowStart <= c.now <= c.wake <= c.later
    && (l.limit > 0 ==> c.now + SleepMs(l, l.windowBytes + c.bytes, c.now) as real * MS <= c.wake)
  }

  predicate Slept(l: Limiter, c: Call)
    requires l.limit > 0
  {
    SleepMs(l, l.windowBytes + c.bytes, c.now) > 0
  }

  predicate Closes(l: Limiter, c: Call) {
    l.limit > 0 && (Slept(l, c) || Elapsed(l, c.now) >= 1.0)
  }

  function Throttle(l: Limiter, c: Call): Limiter {
    if l.limit == 0 then l
    else if Elapsed(l, c.now) >= 1.0 then Limiter(l.limit, c.later, 0)
    else if Slept(l, c) then Limiter(l.limit, c.wake, 0)
    else Limiter(l.limit, l.windowStart, l.windowBytes + c.bytes)
  }

  // ---------------------------------------------------------------- one call

  lemma TrafficAdds(limit: nat, x: real, y: real)
    ensures Traffic(limit, x) + Traffic(limit, y) == Traffic(limit, x + y)
  {
  }

  lemma TrafficMonotone(limit: nat, x: real, y: real)
    requires x <= y
    ensures Traffic(limit, x) <= Traffic(limit, y)
  {
  }

  lemma TrafficStrict(limit: nat, x: real, y: real)
    requires limit > 0 && x < y
    ensures Traffic(limit, x) < Traffic(limit, y)
  {
  }

  // Dividing by the limit turns bytes into the time they take.
  lemma TrafficOf(limit: nat, bytes: real)
    requires limit > 0
    ensures Traffic(limit, bytes / limit as real) == bytes
  {
  }

  // If the truncated sleep is ms, then the excess over the budget is below ms + 1 milliseconds of traffic.
  lemma ExcessBelow(l: Limiter, bytes: nat, now: real)
    requires l.limit > 0
    ensures bytes as real <= Traffic(l.limit, Elapsed(l, now) + SleepMs(l, bytes, now) as real * MS + MS)
  {
    var e, ms := Elapsed(l, now), SleepMs(l, bytes, now);
    var budget := Traffic(l.limit, e);
    if bytes as real > budget {
      var s := (bytes as real - budget) / l.limit as real;
      assert s * 1000.0 < ms as real + 1.0;
      hide Traffic, SleepMs;
      TrafficOf(l.limit, bytes as real - budget);
      TrafficAdds(l.limit, e, s);
      TrafficMonotone(l.limit, e + s, e + ms as real * MS + MS);
    } else {
      TrafficMonotone(l.limit, e, e + ms as real * MS + MS);
    }
  }

  /** A window that closes has lasted at least a millisecond and has carried at most its limit over its
      duration plus two milliseconds; one that stays open obeys the same bound up to now. */
  lemma WindowBound(l: Limiter, c: Call)
    requires l.limit > 0 && Clocked(l, c)
    ensures Throttle(l, c).limit == l.limit
    ensures Closes(l, c) ==>
              && Throttle(l, c).windowBytes == 0
              && l.windowStart + MS <= Throttle(l, c).windowStart <= c.later
              && (l.windowBytes + c.bytes) as real
                 <= Traffic(l.limit, Throttle(l, c).windowStart - l.windowStart + 2.0 * MS)
    ensures !Closes(l, c) ==>
              && Throttle(l, c) == Limiter(l.limit, l.windowStart, l.windowBytes + c.bytes)
              && (l.windowBytes + c.bytes) as real <= Traffic(l.limit, c.now - l.windowStart + 2.0 * MS)
  {
    hide Traffic, SleepMs;
    var ms := SleepMs(l, l.windowBytes + c.bytes, c.now);
    var end := if Closes(l, c) then Throttle(l, c).windowStart else c.now;
    ExcessBelow(l, l.windowBytes + c.bytes, c.now);
    TrafficMonotone(l.limit, Elapsed(l, c.now) + ms as real * MS + MS, end - l.windowStart + 2.0 * MS);
  }

  // ---------------------------------------------------------------- any sequence of calls

  ghost predicate ClockedRun(l: Limiter, calls: seq<Call>)
    decreases |calls|
  {
    calls != [] ==>
      && Clocked(l, calls[0])
      && (|calls| > 1 ==> calls[0].later <= calls[1].now)
      && ClockedRun(Throttle(l, calls[0]), calls[1..])
  }

  function AfterAll(l: Limiter, calls: seq<Call>): Limiter
    decreases |calls|
  {
    if calls == [] then l else AfterAll(Throttle(l, calls[0]), calls[1..])
  }

  function TotalBytes(calls: seq<Call>): nat {
    if calls == [] then 0 else calls[0].bytes + TotalBytes(calls[1..])
  }

  function ClosedWindows(l: Limiter, calls: seq<Call>): nat
    decreases |calls|
  {
    if calls == [] then 0
    else (if Closes(l, calls[0]) then 1 else 0) + ClosedWindows(Throttle(l, calls[0]), calls[1..])
  }

  // The last clock reading.
  function End(l: Limiter, calls: seq<Call>): real {
    if calls == [] then l.windowStart else calls[|calls| - 1].later
  }

  // Bytes already accounted to closed windows, window by window.
  lemma {:induction false} ClosedBytes(l: Limiter, calls: seq<Call>)
    requires l.limit > 0 && ClockedRun(l, calls)
    ensures var l', n := AfterAll(l, calls), ClosedWindows(l, calls) as real;
            && l'.limit == l.limit
            && l'.windowStart - l.windowStart >= n * MS
            && (TotalBytes(calls) + l.windowBytes) as real
               <= Traffic(l.limit, l'.windowStart - l.windowStart + 2.0 * MS * n) + l'.windowBytes as real
    decreases |calls|
  {
    hide Traffic, Throttle, Closes, Clocked;
    if calls == [] {
      TrafficMonotone(l.limit, 0.0, 0.0);
      TrafficAdds(l.limit, 0.0, 0.0);
    } else {
      var c, l1, l' := calls[0], Throttle(l, calls[0]), AfterAll(l, calls);
      WindowBound(l, c);
      ClosedBytes(l1, calls[1..]);
      var n1 := ClosedWindows(l1, calls[1..]) as real;
      var rest := l'.windowStart - l1.windowStart + 2.0 * MS * n1;
      if Closes(l, c) {
        TrafficAdds(l.limit, l1.windowStart - l.windowStart + 2.0 * MS, rest);
        assert l1.windowStart - l.windowStart + 2.0 * MS + rest
               == l'.windowStart - l.windowStart + 2.0 * MS * (n1 + 1.0);
      }
    }
  }

  // The window still open at the end.
  lemma {:induction false} OpenWindow(l: Limiter, calls: seq<Call>)
    requires l.limit > 0 && ClockedRun(l, calls)
    requires calls == [] ==> l.windowBytes == 0
    ensures var l', end := AfterAll(l, calls), End(l, calls);
            && l'.windowStart <= end
            && l'.windowBytes as real <= Traffic(l.limit, end - l'.windowStart + 2.0 * MS)
    decreases |calls|
  {
    if calls == [] {
      TrafficMonotone(l.limit, 0.0, 2.0 * MS);
    } else if |calls| == 1 {
      assert calls[1..] == [];
      LastCall(l, calls[0]);
    } else {
      hide Traffic, Throttle, Closes, Clocked;
      WindowBound(l, calls[0]);
      OpenWindow(Throttle(l, calls[0]), calls[1..]);
    }
  }

  lemma LastCall(l: Limiter, c: Call)
    requires l.limit > 0 && Clocked(l, c)
    ensures var l' := Throttle(l, c);
            && l'.windowStart <= c.later
            && l'.windowBytes as real <= Traffic(l.limit, c.later - l'.windowStart + 2.0 * MS)
  {
    hide Traffic, Throttle, SleepMs, Elapsed;
    WindowBound(l, c);
    if Closes(l, c) {
      TrafficMonotone(l.limit, 0.0, c.later - Throttle(l, c).windowStart + 2.0 * MS);
      TrafficAdds(l.limit, 0.0, 0.0);
    } else {
      TrafficMonotone(l.limit, c.now - l.windowStart + 2.0 * MS, c.later - l.windowStart + 2.0 * MS);
    }
  }

  /** Over any sequence of calls the bytes sent stay within the limit over the elapsed time plus two
      milliseconds for each window; as every closed window lasts a millisecond, they never exceed the
      limit over three times the elapsed time plus two milliseconds. */
  lemma ThroughputBound(l: Limiter, calls: seq<Call>)
    requires l.limit > 0 && l.windowBytes == 0 && ClockedRun(l, calls)
    ensures var elapsed, windows := End(l, calls) - l.windowStart, ClosedWindows(l, calls) as real + 1.0;
            && TotalBytes(calls) as real <= Traffic(l.limit, elapsed + 2.0 * MS * windows)
            && TotalBytes(calls) as real <= Traffic(l.limit, 3.0 * elapsed + 2.0 * MS)
  {
    hide Traffic;
    var l', n, end := AfterAll(l, calls), ClosedWindows(l, calls) as real, End(l, calls);
    ClosedBytes(l, calls);
    OpenWindow(l, calls);
    var closed, open := l'.windowStart - l.windowStart + 2.0 * MS * n, end - l'.windowStart + 2.0 * MS;
    TrafficAdds(l.limit, closed, open);
    assert closed + open == end - l.windowStart + 2.0 * MS * (n + 1.0);
    TrafficMonotone(l.limit, closed + open, 3.0 * (end - l.windowStart) + 2.0 * MS);
  }

  /** For chunks of at most CHUNK_SIZE bytes the sleep always fits the 32-bit millisecond count it is
      converted to. */
  lemma SleepFits(l: Limiter, calls: seq<Call>, bytes: nat, now: real)
    requires l.limit > 0 && l.windowBytes == 0 && ClockedRun(l, calls) && End(l, calls) <= now && bytes <= CHUNK_SIZE
    ensures var l' := AfterAll(l, calls);
            l'.limit > 0 && SleepMs(l', l'.windowBytes + bytes, now) < 0x1_0000_0000
  {
    ClosedBytes(l, calls);
    OpenWindow(l, calls);
    var l', end := AfterAll(l, calls), End(l, calls);
    TrafficMonotone(l.limit, end - l'.windowStart + 2.0 * MS, Elapsed(l', now) + 2.0 * MS);
    SmallExcess(l', l'.windowBytes + bytes, now);
  }

  // The excess is at most two milliseconds of traffic and one chunk, which takes at most CHUNK_SIZE seconds.
  lemma SmallExcess(l: Limiter, bytes: nat, now: real)
    requires l.limit > 0 && bytes as real - CHUNK_SIZE as real <= Traffic(l.limit, Elapsed(l, now) + 2.0 * MS)
    ensures SleepMs(l, bytes, now) < 0x1_0000_0000
  {
    var e := Elapsed(l, now);
    var budget := Traffic(l.limit, e);
    if bytes as real > budget {
      var s := (bytes as real - budget) / l.limit as real;
      assert SleepMs(l, bytes, now) == (s * 1000.0).Floor;
      hide Traffic, SleepMs;
      TrafficAdds(l.limit, e, 2.0 * MS);
      ChunkTime(l.limit);
      TrafficAdds(l.limit, 2.0 * MS, CHUNK_SIZE as real);
      TrafficOf(l.limit, bytes as real - budget);
      assert Traffic(l.limit, s) <= Traffic(l.limit, 2.0 * MS + CHUNK_SIZE as real);
      if s > 2.0 * MS + CHUNK_SIZE as real {
        TrafficStrict(l.limit, 2.0 * MS + CHUNK_SIZE as real, s);
        assert false;
      }
    }
  }

  lemma ChunkTime(limit: nat)
    requires limit > 0
    ensures CHUNK_SIZE as real <= Traffic(limit, CHUNK_SIZE as real)
  {
    assert Traffic(limit, CHUNK_SIZE as real) == CHUNK_SIZE as real * limit as real;
  }

  // ---------------------------------------------------------------- the limiter as an object

  class RateLimiter {
    var limit: nat
    var windowStart: real
    var windowBytes: nat

    ghost function View(): Limiter
      reads this
    {
      Limiter(limit, windowStart, windowBytes)
    }

    constructor (maxBytesPerSec: nat, now: real)
      ensures View() == Limiter(maxBytesPerSec, now, 0)
    {
      limit, windowStart, windowBytes := maxBytesPerSec, now, 0;
    }

    method ThrottleBytes(bytes: nat, now: real, wake: real, later: real)
      requires Clocked(View(), Call(bytes, now, wake, later))
      modifies this
      ensures View() == Throttle(old(View()), Call(bytes, now, wake, later))
    {
      if limit == 0 { return; }
      windowBytes := windowBytes + bytes;
      var elapsed := now - windowStart;
      if elapsed < 0.001 { elapsed := 0.001; }
      var budget := limit as real * elapsed;
      if windowBytes as real > budget {
        var excess := windowBytes as real - budget;
        var sleepSec := excess / limit as real;
        var sleepMs := (sleepSec * 1000.0).Floor;
        if sleepMs > 0 {
          // sleeps until `wake`
          windowStart := wake;
          windowBytes := 0;
        }
      }
      if elapsed >= 1.0 {
        windowStart := later;
        windowBytes := 0;
      }
    }

    method SetLimit(bytesPerSec: nat)
      modifies this
      ensures View() == old(View()).(limit := bytesPerSec)
    {
      limit := bytesPerSec;
    }
  }
}
