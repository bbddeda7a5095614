/**
 The login throttle.  A PASS handler checks, authenticates and records (or clears) in three separate
 critical sections, so handlers for one address interleave between them.  The bounds below hold for every
 interleaving and every non-decreasing clock.
 */
module LoginThrottle {

  const MAX_ATTEMPTS: nat := 5
  const BLOCK_SECS: nat := 60

  datatype RateInfo = RateInfo(failedAttempts: nat, blockedUntil: int)
  type RateMap = map<string, RateInfo>

  // ---------------------------------------------------------------- the three critical sections

  predicate Limited(rates: RateMap, ip: string, now: int) {
    ip in rates && rates[ip].failedAttempts >= MAX_ATTEMPTS && now < rates[ip].blockedUntil
  }

  // An expired block is reset by whoever finds it expired.
  function AfterCheck(rates: RateMap, ip: string, now: int): RateMap {
    if ip in rates && rates[ip].failedAttempts >= MAX_ATTEMPTS && now >= rates[ip].blockedUntil
    then rates[ip := RateInfo(0, 0)]
    else rates
  }

  function AfterFailure(rates: RateMap, ip: string, now: int): RateMap {
    var info := if ip in rates then rates[ip] else RateInfo(0, 0);
    var failed := info.failedAttempts + 1;
    rates[ip := RateInfo(failed, if failed >= MAX_ATTEMPTS then now + BLOCK_SECS else info.blockedUntil)]
  }

  function AfterClear(rates: RateMap, ip: string): RateMap { rates - {ip} }

  function Attempts(rates: RateMap, ip: string): nat {
    if ip in rates then rates[ip].failedAttempts else 0
  }

  // ---------------------------------------------------------------- handlers interleaving

  // Where a PASS handler is: `Admitted` has passed the throttle, `Rejected` has failed to authenticate and
  // not yet recorded it, `Accepted` has authenticated and not yet cleared.
  datatype Handler = Idle | Admitted(ip: string) | Rejected(ip: string) | Accepted(ip: string)

  datatype Event = Failure(ip: string, time: int) | Cleared(ip: string)

  // `log` is a history of the recorded failures and the clearings.
  datatype State = State(rates: RateMap, totalFailed: nat, clock: int, handlers: seq<Handler>, log: seq<Event>)

  datatype Action =
    | Check(h: nat, ip: string, now: int)
    | Authenticate(h: nat, ok: bool)
    | Record(h: nat, now: int)
    | Clear(h: nat)

  ghost predicate Initial(s: State) {
    s.rates == map[] && s.totalFailed == 0 && s.log == [] &&
    forall h :: 0 <= h < |s.handlers| ==> s.handlers[h] == Idle
  }

  predicate Enabled(s: State, a: Action) {
    a.h < |s.handlers| &&
    match a
    case Check(h, _, now) => s.handlers[h] == Idle && s.clock <= now
    case Authenticate(h, _) => s.handlers[h].Admitted?
    case Record(h, now) => s.handlers[h].Rejected? && s.clock <= now
    case Clear(h) => s.handlers[h].Accepted?
  }

  function Next(s: State, a: Action): State
    requires Enabled(s, a)
  {
    match a
    case Check(h, ip, now) =>
      s.(rates := AfterCheck(s.rates, ip, now), clock := now,
         handlers := s.handlers[h := if Limited(s.rates, ip, now) then Idle else Admitted(ip)])
    case Authenticate(h, ok) =>
      var ip := s.handlers[h].ip;
      s.(handlers := s.handlers[h := if ok then Accepted(ip) else Rejected(ip)])
    case Record(h, now) =>
      var ip := s.handlers[h].ip;
      s.(rates := AfterFailure(s.rates, ip, now), totalFailed := s.totalFailed + 1, clock := now,
         handlers := s.handlers[h := Idle], log := s.log + [Failure(ip, now)])
    case Clear(h) =>
      var ip := s.handlers[h].ip;
      s.(rates := AfterClear(s.rates, ip), handlers := s.handlers[h := Idle], log := s.log + [Cleared(ip)])
  }

  ghost predicate Legal(s: State, run: seq<Action>)
    decreases |run|
  {
    run == [] || (Enabled(s, run[0]) && Legal(Next(s, run[0]), run[1..]))
  }

  ghost function After(s: State, run: seq<Action>): State
    requires Legal(s, run)
    decreases |run|
  {
    if run == [] then s else After(Next(s, run[0]), run[1..])
  }

  // Handlers for ip past the throttle and not yet done.
  function Weight(h: Handler, ip: string): nat { if h != Idle && h.ip == ip then 1 else 0 }

  function Pending(hs: seq<Handler>, ip: string): nat {
    if hs == [] then 0 else Weight(hs[0], ip) + Pending(hs[1..], ip)
  }

  lemma {:induction false} PendingUpdate(hs: seq<Handler>, h: nat, x: Handler, ip: string)
    requires h < |hs|
    ensures Pending(hs[h := x], ip) + Weight(hs[h], ip) == Pending(hs, ip) + Weight(x, ip)
    ensures Weight(hs[h], ip) <= Pending(hs, ip) <= |hs|
  {
    if h == 0 {
      assert hs[h := x][1..] == hs[1..];
      if |hs| > 1 { PendingUpdate(hs[1..], 0, x, ip); }
    } else {
      assert hs[h := x][1..] == hs[1..][h - 1 := x];
      PendingUpdate(hs[1..], h - 1, x, ip);
    }
  }

  // At most k handlers for ip are under way, in every state of the run.
  ghost predicate AtMost(s: State, run: seq<Action>, ip: string, k: nat)
    requires Legal(s, run)
    decreases |run|
  {
    Pending(s.handlers, ip) <= k && (run != [] ==> AtMost(Next(s, run[0]), run[1..], ip, k))
  }

  // The times of the failures recorded for ip since it was last cleared.
  function Failures(log: seq<Event>, ip: string): seq<int> {
    if log == [] then []
    else
      var before, last := Failures(log[..|log| - 1], ip), log[|log| - 1];
      if last.ip != ip then before else if last.Cleared? then [] else before + [last.time]
  }

  function CountFailures(log: seq<Event>): nat {
    if log == [] then 0 else CountFailures(log[..|log| - 1]) + if log[|log| - 1].Failure? then 1 else 0
  }

  lemma LogGrows(log: seq<Event>, e: Event, ip: string)
    ensures Failures(log + [e], ip) ==
            if e.ip != ip then Failures(log, ip) else if e.Cleared? then [] else Failures(log, ip) + [e.time]
    ensures CountFailures(log + [e]) == CountFailures(log) + if e.Failure? then 1 else 0
  {
    assert (log + [e])[..|log|] == log;
  }

  // ---------------------------------------------------------------- one handler alone

  // The table after a PASS handler that nobody interrupts.
  function AfterPass(rates: RateMap, ip: string, ok: bool, now: int, later: int): RateMap {
    var checked := AfterCheck(rates, ip, now);
    if Limited(rates, ip, now) then checked
    else if ok then AfterClear(checked, ip) else AfterFailure(checked, ip, later)
  }

  lemma RunOfOne(s: State, a: Action)
    requires Enabled(s, a)
    ensures Legal(s, [a]) && After(s, [a]) == Next(s, a)
  {
    assert [a][1..] == [];
  }

  /** Such a handler is a run of the machine: a check, and if admitted an authentication and its record. */
  lemma PassIsARun(s: State, h: nat, ip: string, ok: bool, now: int, later: int) returns (run: seq<Action>)
    requires h < |s.handlers| && s.handlers[h] == Idle && s.clock <= now <= later
    ensures Legal(s, run) && After(s, run).rates == AfterPass(s.rates, ip, ok, now, later)
    ensures After(s, run).handlers == s.handlers
  {
    var check := Check(h, ip, now);
    var s1 := Next(s, check);
    if Limited(s.rates, ip, now) {
      run := [check];
      assert run[1..] == [];
    } else {
      var auth, last := Authenticate(h, ok), if ok then Clear(h) else Record(h, later);
      run := [check, auth, last];
      assert run[1..] == [auth, last] && [auth, last][1..] == [last] && [last][1..] == [];
      assert Enabled(s1, auth) && Enabled(Next(s1, auth), last);
      RunOfOne(Next(s1, auth), last);
    }
  }

  // ---------------------------------------------------------------- the invariant for one address

  // No 5 - 1 + k + 1 consecutive failures fall within less than the blocking time.
  ghost predicate Spaced(f: seq<int>, m: nat) {
    forall i :: 0 <= i && i + m < |f| ==> f[i] + BLOCK_SECS <= f[i + m]
  }

  ghost predicate Sorted(f: seq<int>) { forall i, j :: 0 <= i <= j < |f| ==> f[i] <= f[j] }

  ghost predicate Inv(s: State, ip: string, k: nat) {
    var f, a := Failures(s.log, ip), Attempts(s.rates, ip);
    && a + Pending(s.handlers, ip) <= MAX_ATTEMPTS - 1 + k
    && a <= |f|
    && Sorted(f) && (forall i :: 0 <= i < |f| ==> f[i] <= s.clock)
    && Spaced(f, MAX_ATTEMPTS - 1 + k)
    && (forall i :: 0 <= i < |f| - a ==> f[i] + BLOCK_SECS <= s.clock)
    && (a >= MAX_ATTEMPTS ==> s.rates[ip].blockedUntil == f[|f| - 1] + BLOCK_SECS)
  }

  lemma CheckKeepsInv(s: State, h: nat, ip: string, now: int, me: string, k: nat)
    requires Inv(s, me, k) && Enabled(s, Check(h, ip, now))
    requires Pending(Next(s, Check(h, ip, now)).handlers, me) <= k
    ensures Inv(Next(s, Check(h, ip, now)), me, k)
  {
    PendingUpdate(s.handlers, h, Next(s, Check(h, ip, now)).handlers[h], me);
  }

  lemma RecordKeepsInv(s: State, h: nat, now: int, me: string, k: nat)
    requires Inv(s, me, k) && Enabled(s, Record(h, now))
    ensures Inv(Next(s, Record(h, now)), me, k)
  {
    PendingUpdate(s.handlers, h, Idle, me);
    LogGrows(s.log, Failure(s.handlers[h].ip, now), me);
    if s.handlers[h].ip == me { OwnRecord(s, Next(s, Record(h, now)), now, me, k); }
  }

  lemma OwnRecord(s: State, s': State, now: int, me: string, k: nat)
    requires Inv(s, me, k) && s.clock <= now == s'.clock
    requires s'.rates == AfterFailure(s.rates, me, now)
    requires Failures(s'.log, me) == Failures(s.log, me) + [now]
    requires Pending(s'.handlers, me) + 1 == Pending(s.handlers, me)
    ensures Inv(s', me, k)
  {
    // The handler itself was pending, so its attempt count was below the bound.
    AppendSpaced(Failures(s.log, me), now, s.clock, Attempts(s.rates, me), MAX_ATTEMPTS - 1 + k);
  }

  // A failure more than `a` places back belongs to an earlier, expired block.
  lemma AppendSpaced(f: seq<int>, now: int, clock: int, a: nat, m: nat)
    requires Sorted(f) && Spaced(f, m) && a <= |f| && a < m && clock <= now
    requires forall i :: 0 <= i < |f| ==> f[i] <= clock
    requires forall i :: 0 <= i < |f| - a ==> f[i] + BLOCK_SECS <= clock
    ensures Sorted(f + [now]) && Spaced(f + [now], m)
  {
    var g := f + [now];
    forall i | 0 <= i && i + m < |g| ensures g[i] + BLOCK_SECS <= g[i + m] {
      if i + m < |f| { assert g[i] == f[i] && g[i + m] == f[i + m]; } else { assert i < |f| - a; }
    }
  }

  lemma OthersKeepInv(s: State, a: Action, me: string, k: nat)
    requires Inv(s, me, k) && Enabled(s, a) && (a.Authenticate? || a.Clear?)
    ensures Inv(Next(s, a), me, k)
  {
    PendingUpdate(s.handlers, a.h, Next(s, a).handlers[a.h], me);
    if a.Clear? { LogGrows(s.log, Cleared(s.handlers[a.h].ip), me); }
  }

  lemma StepKeepsInv(s: State, a: Action, ip: string, k: nat)
    requires Inv(s, ip, k) && Enabled(s, a) && Pending(Next(s, a).handlers, ip) <= k
    ensures Inv(Next(s, a), ip, k)
  {
    match a
    case Check(h, other, now) => CheckKeepsInv(s, h, other, now, ip, k);
    case Record(h, now) => RecordKeepsInv(s, h, now, ip, k);
    case _ => OthersKeepInv(s, a, ip, k);
  }

  lemma {:induction false} NonePending(hs: seq<Handler>, ip: string)
    requires forall h :: 0 <= h < |hs| ==> hs[h] == Idle
    ensures Pending(hs, ip) == 0
  {
    if hs != [] { NonePending(hs[1..], ip); }
  }

  lemma {:induction false} RunKeepsInv(s: State, run: seq<Action>, ip: string, k: nat)
    requires Inv(s, ip, k) && Legal(s, run) && AtMost(s, run, ip, k)
    ensures Inv(After(s, run), ip, k)
    decreases |run|
  {
    if run != [] {
      StepKeepsInv(s, run[0], ip, k);
      RunKeepsInv(Next(s, run[0]), run[1..], ip, k);
    }
  }

  // ---------------------------------------------------------------- the bounds

  // How many of the times fall in the half-open window of BLOCK_SECS seconds from t.
  function InWindow(f: seq<int>, t: int): nat {
    if f == [] then 0
    else InWindow(f[..|f| - 1], t) + if t <= f[|f| - 1] < t + BLOCK_SECS then 1 else 0
  }

  lemma {:induction false} WindowOfSuffix(f: seq<int>, t: int, j: nat)
    requires j <= |f| && forall i :: 0 <= i < j ==> f[i] < t
    ensures InWindow(f, t) <= |f| - j
  {
    if |f| > 0 {
      var init := f[..|f| - 1];
      WindowOfSuffix(init, t, if j == |f| then j - 1 else j);
    }
  }

  lemma {:induction false} SpacedWindow(f: seq<int>, t: int, m: nat)
    requires Sorted(f) && Spaced(f, m) && m > 0
    ensures InWindow(f, t) <= m
  {
    if |f| > m {
      var n := |f| - 1;
      if t <= f[n] < t + BLOCK_SECS {
        forall i | 0 <= i <= n - m ensures f[i] < t {
          assert f[i] <= f[n - m] && f[n - m] + BLOCK_SECS <= f[n - m + m];
        }
        WindowOfSuffix(f, t, n - m + 1);
      } else {
        SpacedWindow(f[..n], t, m);
      }
    } else {
      WindowOfSuffix(f, t, 0);
    }
  }

  /** With at most k handlers for an address under way at once, its attempt count plus the handlers still
      to record never exceeds kMaxAttempts - 1 + k, and every half-open window of kBlockSecs seconds holds
      at most kMaxAttempts - 1 + k of the failures recorded since its last successful login. */
  lemma InterleavedBound(s: State, run: seq<Action>, ip: string, k: nat, t: int)
    requires Initial(s) && Legal(s, run) && AtMost(s, run, ip, k)
    ensures var s' := After(s, run);
            && Attempts(s'.rates, ip) + Pending(s'.handlers, ip) <= MAX_ATTEMPTS - 1 + k
            && InWindow(Failures(s'.log, ip), t) <= MAX_ATTEMPTS - 1 + k
  {
    NonePending(s.handlers, ip);
    RunKeepsInv(s, run, ip, k);
    SpacedWindow(Failures(After(s, run).log, ip), t, MAX_ATTEMPTS - 1 + k);
  }

  lemma {:induction false} PendingAtMostHandlers(s: State, run: seq<Action>, ip: string)
    requires Legal(s, run)
    ensures AtMost(s, run, ip, |s.handlers|)
    decreases |run|
  {
    if |s.handlers| > 0 { PendingUpdate(s.handlers, 0, s.handlers[0], ip); }
    if run != [] {
      assert |Next(s, run[0]).handlers| == |s.handlers|;
      PendingAtMostHandlers(Next(s, run[0]), run[1..], ip);
    }
  }

  /** Handled one at a time, at most kMaxAttempts failures are recorded in any window. */
  lemma SerialBound(s: State, run: seq<Action>, ip: string, t: int)
    requires Initial(s) && Legal(s, run) && |s.handlers| == 1
    ensures InWindow(Failures(After(s, run).log, ip), t) <= MAX_ATTEMPTS
  {
    PendingAtMostHandlers(s, run, ip);
    InterleavedBound(s, run, ip, 1, t);
  }

  /** A check lets a handler through only if fewer than kMaxAttempts failures count against its address or
      kBlockSecs seconds have passed since the last of them. */
  lemma AdmittedOnlyAfterBlock(s: State, run: seq<Action>, h: nat, ip: string, now: int)
    requires Initial(s) && Legal(s, run) && Enabled(After(s, run), Check(h, ip, now))
    requires Next(After(s, run), Check(h, ip, now)).handlers[h] == Admitted(ip)
    ensures var f := Failures(After(s, run).log, ip);
            Attempts(After(s, run).rates, ip) < MAX_ATTEMPTS || (f != [] && f[|f| - 1] + BLOCK_SECS <= now)
  {
    NonePending(s.handlers, ip);
    PendingAtMostHandlers(s, run, ip);
    RunKeepsInv(s, run, ip, |s.handlers|);
  }

  /** A step for one address leaves every other address as it was. */
  lemma OtherAddressesUnaffected(s: State, a: Action, ip: string, now: int)
    requires Enabled(s, a)
    requires ip != if a.Check? then a.ip else s.handlers[a.h].ip
    ensures Attempts(Next(s, a).rates, ip) == Attempts(s.rates, ip)
    ensures Limited(Next(s, a).rates, ip, now) == Limited(s.rates, ip, now)
    ensures Failures(Next(s, a).log, ip) == Failures(s.log, ip)
    ensures Pending(Next(s, a).handlers, ip) == Pending(s.handlers, ip)
  {
    PendingUpdate(s.handlers, a.h, Next(s, a).handlers[a.h], ip);
    if a.Record? || a.Clear? { LogGrows(s.log, Next(s, a).log[|s.log|], ip); }
  }

  /** `totalFailed_` counts every recorded failure, and nothing else. */
  lemma {:induction false} TotalCountsFailures(s: State, run: seq<Action>)
    requires Legal(s, run) && s.totalFailed == CountFailures(s.log)
    ensures After(s, run).totalFailed == CountFailures(After(s, run).log)
    decreases |run|
  {
    if run != [] {
      StepCountsFailures(s, run[0]);
      hide Next, CountFailures, Enabled;
      TotalCountsFailures(Next(s, run[0]), run[1..]);
    }
  }

  lemma StepCountsFailures(s: State, a: Action)
    requires Enabled(s, a) && s.totalFailed == CountFailures(s.log)
    ensures Next(s, a).totalFailed == CountFailures(Next(s, a).log)
  {
    hide CountFailures, Failures, AfterCheck, AfterFailure, AfterClear;
    if a.Record? || a.Clear? { LogGrows(s.log, Next(s, a).log[|s.log|], ""); }
  }

  // ---------------------------------------------------------------- the interleaved bound is attained

  ghost predicate Reaches(s0: State, s: State) {
    exists run :: Legal(s0, run) && After(s0, run) == s
  }

  lemma Extend(s0: State, s: State, a: Action)
    requires Reaches(s0, s) && Enabled(s, a)
    ensures Reaches(s0, Next(s, a))
  {
    var run :| Legal(s0, run) && After(s0, run) == s;
    ExtendRun(s0, run, a);
  }

  lemma {:induction false} ExtendRun(s: State, run: seq<Action>, a: Action)
    requires Legal(s, run) && Enabled(After(s, run), a)
    ensures Legal(s, run + [a]) && After(s, run + [a]) == Next(After(s, run), a)
    decreases |run|
  {
    if run == [] {
      assert run + [a] == [a] && [a][1..] == [];
    } else {
      assert (run + [a])[0] == run[0] && (run + [a])[1..] == run[1..] + [a];
      ExtendRun(Next(s, run[0]), run[1..], a);
    }
  }

  ghost predicate AtZero(s0: State, s: State, ip: string, n: nat) {
    Reaches(s0, s) && s.clock == 0 && Attempts(s.rates, ip) == n && InWindow(Failures(s.log, ip), 0) == n
  }

  lemma FailFrom(s0: State, s: State, h: nat, ip: string, n: nat) returns (s': State)
    requires AtZero(s0, s, ip, n) && h < |s.handlers| && s.handlers[h] == Admitted(ip)
    ensures AtZero(s0, s', ip, n + 1) && s'.handlers == s.handlers[h := Idle]
  {
    hide Reaches, InWindow, Failures;
    var s1 := Next(s, Authenticate(h, false));
    Extend(s0, s, Authenticate(h, false));
    s' := Next(s1, Record(h, 0));
    Extend(s0, s1, Record(h, 0));
    FailureAtZero(s1.log, ip);
  }

  // A failure at second zero falls in the window from zero.
  lemma FailureAtZero(log: seq<Event>, ip: string)
    ensures InWindow(Failures(log + [Failure(ip, 0)], ip), 0) == InWindow(Failures(log, ip), 0) + 1
  {
    hide Failures;
    LogGrows(log, Failure(ip, 0), ip);
    var f := Failures(log, ip);
    assert (f + [0])[..|f|] == f;
  }

  lemma {:induction false} FailSerially(s0: State, s: State, ip: string, n: nat, m: nat) returns (s': State)
    requires AtZero(s0, s, ip, n) && n <= m < MAX_ATTEMPTS && |s.handlers| > 0 && s.handlers[0] == Idle
    ensures AtZero(s0, s', ip, m) && s'.handlers == s.handlers
    decreases m - n
  {
    if n == m { return s; }
    var s1 := Next(s, Check(0, ip, 0));
    Extend(s0, s, Check(0, ip, 0));
    var s2 := FailFrom(s0, s1, 0, ip, n);
    s' := FailSerially(s0, s2, ip, n + 1, m);
    assert s2.handlers == s.handlers;
  }

  lemma {:induction false} AdmitAll(s0: State, s: State, ip: string, n: nat, j: nat) returns (s': State)
    requires AtZero(s0, s, ip, n) && n < MAX_ATTEMPTS && j <= |s.handlers|
    requires forall h :: j <= h < |s.handlers| ==> s.handlers[h] == Idle
    requires forall h :: 0 <= h < j ==> s.handlers[h] == Admitted(ip)
    ensures AtZero(s0, s', ip, n) && |s'.handlers| == |s.handlers|
    ensures forall h :: 0 <= h < |s'.handlers| ==> s'.handlers[h] == Admitted(ip)
    decreases |s.handlers| - j
  {
    if j == |s.handlers| { return s; }
    Extend(s0, s, Check(j, ip, 0));
    s' := AdmitAll(s0, Next(s, Check(j, ip, 0)), ip, n, j + 1);
  }

  lemma {:induction false} FailAll(s0: State, s: State, ip: string, n: nat, j: nat) returns (s': State)
    requires AtZero(s0, s, ip, n) && j <= |s.handlers|
    requires forall h :: j <= h < |s.handlers| ==> s.handlers[h] == Admitted(ip)
    ensures AtZero(s0, s', ip, n + |s.handlers| - j)
    decreases |s.handlers| - j
  {
    if j == |s.handlers| { return s; }
    var s1 := FailFrom(s0, s, j, ip, n);
    s' := FailAll(s0, s1, ip, n + 1, j + 1);
  }

  /** The interleaved bound is tight: with k handlers, some interleaving records kMaxAttempts - 1 + k
      failures in one second.  So the serial limit of kMaxAttempts holds for k = 1 only. */
  lemma BoundAttained(s0: State, ip: string) returns (s: State)
    requires Initial(s0) && s0.clock == 0 && |s0.handlers| > 0
    ensures Reaches(s0, s) && InWindow(Failures(s.log, ip), 0) == MAX_ATTEMPTS - 1 + |s0.handlers|
  {
    assert Legal(s0, []) && After(s0, []) == s0;
    s := FailSerially(s0, s0, ip, 0, MAX_ATTEMPTS - 1);
    s := AdmitAll(s0, s, ip, MAX_ATTEMPTS - 1, 0);
    assert |s.handlers| == |s0.handlers|;
    s := FailAll(s0, s, ip, MAX_ATTEMPTS - 1, 0);
  }
}
