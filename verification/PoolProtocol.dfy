/**
 The worker pool as a transition system over its atomic steps.

 Three kinds of threads share the pool: workers running the worker loop, submitters, and callers of
 shutdown.  A step of a thread is one access to shared state: taking or releasing the mutex, one load or
 exchange of the shutdown flag, one change of the wait count, one operation on the semaphore, one queue
 operation.  The flag is not protected by the mutex, so a shutdown caller can flip it between any two
 steps of a thread that holds the mutex.
 */
module PoolProtocol {

  type Task = int

  // Where a worker is in its loop.  `Sleeping` is blocked on the semaphore; `Woken` has consumed a token
  // and has not yet got the mutex back.
  datatype Worker =
    | Locking | Testing | Waiting | Releasing | Sleeping | Woken | Relocked
    | Checking | Taking | Taken(task: Task) | Started(task: Task) | Running(task: Task) | Ended
    | Leaving | Exited

  datatype Submitter = Idle | ToLock(task: Task) | ToCheck(task: Task) | ToPush(task: Task) | ToNotify | ToUnlock

  // `Joining(i)` waits for worker i; `Returned` is the caller whose exchange won, after its last join.
  datatype Closer = Absent | ClosingLock | ClosingNotify | ClosingUnlock | Joining(next: nat) | Returned

  datatype Owner = Nobody | ByWorker(i: nat) | BySubmitter(j: nat) | ByCloser(k: nat)

  // `notified`, `accepted`, `dequeued` and `ended` are histories: no step reads them.
  datatype State = State(
    workers: seq<Worker>, submitters: seq<Submitter>, closers: seq<Closer>,
    owner: Owner, sema: nat, waiters: int, queue: seq<Task>, flag: bool, active: nat,
    notified: bool, accepted: seq<Task>, dequeued: seq<Task>, ended: seq<Task>)

  datatype Action =
    | WorkerStep(i: nat)
    | Submit(j: nat, task: Task)
    | SubmitterStep(j: nat)
    | Shutdown(k: nat)
    | CloserStep(k: nat)

  ghost predicate Initial(s: State) {
    && (forall i :: 0 <= i < |s.workers| ==> s.workers[i] == Locking)
    && (forall j :: 0 <= j < |s.submitters| ==> s.submitters[j] == Idle)
    && (forall k :: 0 <= k < |s.closers| ==> s.closers[k] == Absent)
    && s.owner == Nobody && s.sema == 0 && s.waiters == 0 && s.queue == [] && !s.flag && s.active == 0
    && !s.notified && s.accepted == [] && s.dequeued == [] && s.ended == []
  }

  predicate Enabled(s: State, a: Action) {
    match a
    case WorkerStep(i) => i < |s.workers| && WorkerEnabled(s, s.workers[i])
    case Submit(j, _) => j < |s.submitters| && s.submitters[j] == Idle
    case SubmitterStep(j) =>
      j < |s.submitters| && s.submitters[j] != Idle && (s.submitters[j].ToLock? ==> s.owner == Nobody)
    case Shutdown(k) => k < |s.closers| && (s.closers[k] == Absent || s.closers[k] == Returned)
    case CloserStep(k) => k < |s.closers| && CloserEnabled(s, s.closers[k])
  }

  predicate WorkerEnabled(s: State, w: Worker) {
    match w
    case Locking => s.owner == Nobody
    case Woken => s.owner == Nobody
    case Sleeping => s.sema > 0
    case Exited => false
    case _ => true
  }

  predicate CloserEnabled(s: State, c: Closer) {
    match c
    case Absent => false
    case Returned => false
    case ClosingLock => s.owner == Nobody
    case Joining(i) => i < |s.workers| ==> s.workers[i] == Exited
    case _ => true
  }

  function Next(s: State, a: Action): State
    requires Enabled(s, a)
  {
    match a
    case WorkerStep(i) => NextWorker(s, i)
    case Submit(j, t) => s.(submitters := s.submitters[j := ToLock(t)])
    case SubmitterStep(j) => NextSubmitter(s, j)
    case Shutdown(k) =>
      if s.flag then s else s.(flag := true, closers := s.closers[k := ClosingLock])
    case CloserStep(k) => NextCloser(s, k)
  }

  // Where a worker goes next; the loop's tests read the flag and the queue.
  function NextPoint(s: State, w: Worker): Worker {
    match w
    case Locking => Testing
    case Testing => if !s.flag && s.queue == [] then Waiting else Checking
    case Waiting => Releasing
    case Releasing => Sleeping
    case Sleeping => Woken
    case Woken => Relocked
    case Relocked => Testing
    case Checking => if s.flag && s.queue == [] then Leaving else Taking
    case Taking => if s.queue == [] then Taking else Taken(s.queue[0])
    case Taken(t) => Started(t)
    case Started(t) => Running(t)
    case Running(_) => Ended
    case Ended => Locking
    case Leaving => Exited
    case Exited => Exited
  }

  function NextWorker(s: State, i: nat): State
    requires i < |s.workers|
  {
    var moved := s.(workers := s.workers[i := NextPoint(s, s.workers[i])]);
    match s.workers[i]
    case Locking => moved.(owner := ByWorker(i))
    case Testing => moved
    case Waiting => moved.(waiters := s.waiters + 1)
    case Releasing => moved.(owner := Nobody)
    case Sleeping => moved.(sema := if s.sema > 0 then s.sema - 1 else 0)
    case Woken => moved.(owner := ByWorker(i))
    case Relocked => moved.(waiters := s.waiters - 1)
    case Checking => moved
    case Taking =>
      // front() of an empty queue would be undefined; NeverTakesFromEmptyQueue rules it out.
      if s.queue == [] then s else moved.(queue := s.queue[1..], dequeued := s.dequeued + [s.queue[0]])
    case Taken(_) => moved.(owner := Nobody)
    case Started(_) => moved.(active := s.active + 1)
    case Running(t) => moved.(ended := s.ended + [t])
    case Ended => moved.(active := if s.active > 0 then s.active - 1 else 0)
    case Leaving => moved.(owner := Nobody)
    case Exited => s
  }

  function NextSubmitter(s: State, j: nat): State
    requires j < |s.submitters|
  {
    match s.submitters[j]
    case Idle => s
    case ToLock(t) => s.(owner := BySubmitter(j), submitters := s.submitters[j := ToCheck(t)])
    case ToCheck(t) => s.(submitters := s.submitters[j := if s.flag then ToUnlock else ToPush(t)])
    case ToPush(t) =>
      s.(queue := s.queue + [t], accepted := s.accepted + [t], submitters := s.submitters[j := ToNotify])
    case ToNotify =>
      s.(sema := if s.waiters > 0 then s.sema + 1 else s.sema, submitters := s.submitters[j := ToUnlock])
    case ToUnlock => s.(owner := Nobody, submitters := s.submitters[j := Idle])
  }

  function NextCloser(s: State, k: nat): State
    requires k < |s.closers|
  {
    match s.closers[k]
    case Absent => s
    case ClosingLock => s.(owner := ByCloser(k), closers := s.closers[k := ClosingNotify])
    case ClosingNotify =>
      s.(sema := if s.waiters > 0 then s.sema + s.waiters else s.sema, notified := true,
         closers := s.closers[k := ClosingUnlock])
    case ClosingUnlock => s.(owner := Nobody, closers := s.closers[k := Joining(0)])
    case Joining(i) => s.(closers := s.closers[k := if i < |s.workers| then Joining(i + 1) else Returned])
    case Returned => s
  }

  // A legal run takes enabled actions only; `After` is the state it ends in.
  ghost predicate Legal(s: State, run: seq<Action>)
    decreases |run|
  {
    run == [] || (Enabled(s, run[0]) && Legal(Next(s, run[0]), run[1..]))
  }

  ghost function After(s: State, run: seq<Action>): State
    requires Legal(s, run)
    decreases |run|
  {
    if run == [] then s else After(Next(s, run[0]), run[1..])
  }

  ghost predicate Reachable(s: State) {
    exists s0, run :: Initial(s0) && Legal(s0, run) && After(s0, run) == s
  }

  // ---------------------------------------------------------------- counting workers

  ghost function Sum<T>(ws: seq<T>, weight: T -> nat): nat {
    if ws == [] then 0 else weight(ws[0]) + Sum(ws[1..], weight)
  }

  lemma {:induction false} SumUpdate<T>(ws: seq<T>, weight: T -> nat, i: nat, w: T)
    requires i < |ws|
    ensures Sum(ws[i := w], weight) + weight(ws[i]) == Sum(ws, weight) + weight(w)
  {
    if i == 0 {
      assert ws[i := w][1..] == ws[1..];
    } else {
      assert ws[i := w][1..] == ws[1..][i - 1 := w];
      SumUpdate(ws[1..], weight, i - 1, w);
    }
  }

  lemma {:induction false} SumBounds<T>(ws: seq<T>, weight: T -> nat, i: nat)
    requires i < |ws|
    ensures weight(ws[i]) <= Sum(ws, weight)
  {
    if i > 0 { SumBounds(ws[1..], weight, i - 1); }
  }

  lemma {:induction false} SumUniform<T>(ws: seq<T>, weight: T -> nat, c: nat)
    requires forall i :: 0 <= i < |ws| ==> weight(ws[i]) == c
    ensures Sum(ws, weight) == c * |ws|
  {
    if ws != [] { SumUniform(ws[1..], weight, c); }
  }

  function SleepWeight(w: Worker): nat { if w.Sleeping? then 1 else 0 }
  function WokenWeight(w: Worker): nat { if w.Woken? then 1 else 0 }
  function ActiveWeight(w: Worker): nat { if w.Running? || w.Ended? then 1 else 0 }
  // Counted in `waiters_`.
  function WaiterWeight(w: Worker): nat {
    if w.Releasing? || w.Sleeping? || w.Woken? || w.Relocked? then 1 else 0
  }
  // Awake and bound to look at the queue before sleeping again.
  function AwakeWeight(w: Worker): nat {
    if w.Woken? || w.Relocked? || w.Testing? || w.Checking? || w.Taking? then 1 else 0
  }

  ghost function Sleepers(s: State): nat { Sum(s.workers, SleepWeight) }
  ghost function WokenCount(s: State): nat { Sum(s.workers, WokenWeight) }
  ghost function Awake(s: State): nat { Sum(s.workers, AwakeWeight) }

  ghost function Min(a: int, b: int): int { if a < b then a else b }

  // What a worker holds between the queue and the end of its run.
  function Held(w: Worker): seq<Task> {
    match w
    case Taken(t) => [t]
    case Started(t) => [t]
    case Running(t) => [t]
    case _ => []
  }

  ghost function InFlight(ws: seq<Worker>): multiset<Task> {
    if ws == [] then multiset{} else multiset(Held(ws[0])) + InFlight(ws[1..])
  }

  lemma AddBoth(m: multiset<Task>, a: multiset<Task>, b: multiset<Task>, c: multiset<Task>, d: multiset<Task>)
    requires a + b == c + d
    ensures (m + a) + b == (m + c) + d
  {
    assert (m + a) + b == m + (a + b);
    assert (m + c) + d == m + (c + d);
  }

  lemma {:induction false} InFlightUpdate(ws: seq<Worker>, i: nat, w: Worker)
    requires i < |ws|
    ensures InFlight(ws[i := w]) + multiset(Held(ws[i])) == InFlight(ws) + multiset(Held(w))
  {
    hide Held;
    var rest := ws[1..];
    if i == 0 {
      assert ws[i := w][1..] == rest;
    } else {
      assert ws[i := w][1..] == rest[i - 1 := w] && ws[i := w][0] == ws[0];
      InFlightUpdate(rest, i - 1, w);
      AddBoth(multiset(Held(ws[0])), InFlight(rest[i - 1 := w]), multiset(Held(ws[i])),
              InFlight(rest), multiset(Held(w)));
    }
  }

  lemma {:induction false} InFlightEmpty(ws: seq<Worker>)
    requires forall i :: 0 <= i < |ws| ==> Held(ws[i]) == []
    ensures InFlight(ws) == multiset{}
  {
    if ws != [] { InFlightEmpty(ws[1..]); }
  }

  // ---------------------------------------------------------------- the invariant

  predicate WorkerInside(w: Worker) {
    w.Testing? || w.Waiting? || w.Releasing? || w.Relocked? || w.Checking? || w.Taking? || w.Taken? || w.Leaving?
  }
  predicate SubmitterInside(p: Submitter) { !p.Idle? && !p.ToLock? }
  predicate CloserInside(c: Closer) { c.ClosingNotify? || c.ClosingUnlock? }

  // The mutex: a thread is between lock and unlock exactly when it is the owner.
  ghost predicate MutexInv(s: State) {
    && (forall i :: 0 <= i < |s.workers| ==> (WorkerInside(s.workers[i]) <==> s.owner == ByWorker(i)))
    && (forall j :: 0 <= j < |s.submitters| ==> (SubmitterInside(s.submitters[j]) <==> s.owner == BySubmitter(j)))
    && (forall k :: 0 <= k < |s.closers| ==> (CloserInside(s.closers[k]) <==> s.owner == ByCloser(k)))
    && (s.owner.ByWorker? ==> s.owner.i < |s.workers|)
    && (s.owner.BySubmitter? ==> s.owner.j < |s.submitters|)
    && (s.owner.ByCloser? ==> s.owner.k < |s.closers|)
  }

  // What each thread already knows from the tests it has passed.
  ghost predicate WorkerInv(s: State, w: Worker) {
    match w
    case Waiting => s.queue == [] && !s.notified
    case Releasing => s.queue == [] && !s.notified
    case Checking => s.queue != [] || s.flag
    case Taking => s.queue != []
    case Leaving => s.flag && s.queue == []
    case Exited => s.flag && s.queue == []
    case _ => true
  }

  ghost predicate Left(s: State) {
    exists i :: 0 <= i < |s.workers| && (s.workers[i] == Exited || s.workers[i] == Leaving)
  }

  ghost predicate SubmitterInv(s: State, p: Submitter) {
    && (p.ToPush? ==> !s.notified && !Left(s))
    && (p.ToNotify? ==> !s.notified && s.queue != [])
  }

  ghost predicate CloserInv(s: State, c: Closer) {
    match c
    case Absent => true
    case ClosingLock => s.flag
    case ClosingNotify => s.flag
    case ClosingUnlock => s.notified
    case Joining(n) => s.notified && n <= |s.workers| && forall i :: 0 <= i < n ==> s.workers[i] == Exited
    case Returned => s.notified && forall i :: 0 <= i < |s.workers| ==> s.workers[i] == Exited
  }

  ghost predicate ThreadInv(s: State) {
    && (forall i :: 0 <= i < |s.workers| ==> WorkerInv(s, s.workers[i]))
    && (forall j :: 0 <= j < |s.submitters| ==> SubmitterInv(s, s.submitters[j]))
    && (forall k :: 0 <= k < |s.closers| ==> CloserInv(s, s.closers[k]))
    && (s.notified ==> s.flag)
    && (s.flag && !s.notified ==>
          exists k :: 0 <= k < |s.closers| && (s.closers[k] == ClosingLock || s.closers[k] == ClosingNotify))
  }

  // One notification is owed between push and notify.
  ghost function Owed(s: State): nat {
    if s.owner.BySubmitter? && s.owner.j < |s.submitters| && s.submitters[s.owner.j] == ToNotify then 1 else 0
  }

  // Tokens plus awake workers cover the queue, up to the number of workers that could serve it.
  ghost predicate WakeInv(s: State) {
    && s.waiters == Sum(s.workers, WaiterWeight)
    && s.sema + Awake(s) + Owed(s) >= Min(|s.queue|, Sleepers(s) + Awake(s))
    && (s.notified ==> s.sema >= Sleepers(s))
    && s.active == Sum(s.workers, ActiveWeight)
  }

  ghost predicate HistoryInv(s: State) {
    && s.accepted == s.dequeued + s.queue
    && multiset(s.dequeued) == multiset(s.ended) + InFlight(s.workers)
    && (|s.workers| == 1 ==> s.dequeued == s.ended + Held(s.workers[0]))
  }

  ghost predicate Inv(s: State) {
    MutexInv(s) && ThreadInv(s) && WakeInv(s) && HistoryInv(s)
  }

  lemma InitialInv(s: State)
    requires Initial(s)
    ensures Inv(s)
  {
    SumUniform(s.workers, WaiterWeight, 0);
    SumUniform(s.workers, ActiveWeight, 0);
    SumUniform(s.workers, SleepWeight, 0);
    SumUniform(s.workers, AwakeWeight, 0);
    InFlightEmpty(s.workers);
  }

  // What one step of worker i leaves alone, and how it moves the mutex.
  lemma WorkerShape(s: State, i: nat)
    requires MutexInv(s) && i < |s.workers| && WorkerEnabled(s, s.workers[i])
    ensures var s' := NextWorker(s, i);
            && s'.workers == s.workers[i := NextPoint(s, s.workers[i])]
            && s'.submitters == s.submitters && s'.closers == s.closers
            && s'.flag == s.flag && s'.notified == s.notified && s'.accepted == s.accepted
            && s'.owner == (if WorkerInside(NextPoint(s, s.workers[i])) then ByWorker(i)
                            else if WorkerInside(s.workers[i]) then Nobody else s.owner)
            && (WorkerInside(NextPoint(s, s.workers[i])) && !WorkerInside(s.workers[i]) ==> s.owner == Nobody)
  {
  }

  lemma SubmitterShape(s: State, j: nat)
    requires MutexInv(s) && Enabled(s, SubmitterStep(j))
    ensures var s' := NextSubmitter(s, j);
            && |s'.submitters| == |s.submitters| && s'.submitters == s.submitters[j := s'.submitters[j]]
            && s'.workers == s.workers && s'.closers == s.closers
            && s'.flag == s.flag && s'.notified == s.notified
            && s'.owner == (if SubmitterInside(s'.submitters[j]) then BySubmitter(j) else Nobody)
            && (s.owner == Nobody || s.owner == BySubmitter(j))
  {
  }

  lemma MutexKept(s: State, a: Action)
    requires Inv(s) && Enabled(s, a)
    ensures MutexInv(Next(s, a))
  {
    match a
    case WorkerStep(i) => WorkerShape(s, i); MutexAfterWorker(s, NextWorker(s, i), i);
    case Submit(j, t) =>
    case SubmitterStep(j) => SubmitterShape(s, j); MutexAfterSubmitter(s, NextSubmitter(s, j), j);
    case Shutdown(k) =>
    case CloserStep(k) => CloserShape(s, k); MutexAfterCloser(s, NextCloser(s, k), k);
  }

  lemma MutexAfterWorker(s: State, s': State, i: nat)
    requires MutexInv(s) && i < |s.workers| == |s'.workers|
    requires s'.workers == s.workers[i := s'.workers[i]]
    requires s'.submitters == s.submitters && s'.closers == s.closers
    requires s'.owner == (if WorkerInside(s'.workers[i]) then ByWorker(i)
                          else if WorkerInside(s.workers[i]) then Nobody else s.owner)
    requires WorkerInside(s'.workers[i]) && !WorkerInside(s.workers[i]) ==> s.owner == Nobody
    ensures MutexInv(s')
  {
  }

  lemma MutexAfterSubmitter(s: State, s': State, j: nat)
    requires MutexInv(s) && j < |s.submitters| == |s'.submitters|
    requires s'.submitters == s.submitters[j := s'.submitters[j]]
    requires s'.workers == s.workers && s'.closers == s.closers
    requires s'.owner == (if SubmitterInside(s'.submitters[j]) then BySubmitter(j) else Nobody)
    requires s.owner == Nobody || s.owner == BySubmitter(j)
    ensures MutexInv(s')
  {
  }

  lemma CloserShape(s: State, k: nat)
    requires MutexInv(s) && Enabled(s, CloserStep(k))
    ensures var s' := NextCloser(s, k);
            && |s'.closers| == |s.closers| && s'.closers == s.closers[k := s'.closers[k]]
            && s'.workers == s.workers && s'.submitters == s.submitters
            && s'.owner == (if CloserInside(s'.closers[k]) then ByCloser(k)
                            else if CloserInside(s.closers[k]) then Nobody else s.owner)
            && (CloserInside(s'.closers[k]) && !CloserInside(s.closers[k]) ==> s.owner == Nobody)
  {
  }

  lemma MutexAfterCloser(s: State, s': State, k: nat)
    requires MutexInv(s) && k < |s.closers| == |s'.closers|
    requires s'.closers == s.closers[k := s'.closers[k]]
    requires s'.workers == s.workers && s'.submitters == s.submitters
    requires s'.owner == (if CloserInside(s'.closers[k]) then ByCloser(k)
                          else if CloserInside(s.closers[k]) then Nobody else s.owner)
    requires CloserInside(s'.closers[k]) && !CloserInside(s.closers[k]) ==> s.owner == Nobody
    ensures MutexInv(s')
  {
  }

  lemma ThreadKept(s: State, a: Action)
    requires Inv(s) && Enabled(s, a)
    ensures ThreadInv(Next(s, a))
  {
    match a
    case WorkerStep(i) => ThreadAfterWorker(s, i);
    case Submit(j, t) => ThreadAfterCall(s, a);
    case SubmitterStep(j) => ThreadAfterSubmitter(s, j);
    case Shutdown(k) => ThreadAfterCall(s, a);
    case CloserStep(k) => ThreadAfterCloser(s, k);
  }

  lemma ThreadAfterWorker(s: State, i: nat)
    requires MutexInv(s) && ThreadInv(s) && i < |s.workers| && WorkerEnabled(s, s.workers[i])
    ensures ThreadInv(NextWorker(s, i))
  {
    var s' := NextWorker(s, i);
    WorkerShape(s, i);
    assert WorkerInv(s, s.workers[i]);
    assert s'.queue == s.queue || (s.owner == ByWorker(i) && s.queue != []);
  }

  lemma ThreadAfterSubmitter(s: State, j: nat)
    requires MutexInv(s) && ThreadInv(s) && Enabled(s, SubmitterStep(j))
    ensures ThreadInv(NextSubmitter(s, j))
  {
  }

  lemma ThreadAfterCall(s: State, a: Action)
    requires MutexInv(s) && ThreadInv(s) && Enabled(s, a) && (a.Submit? || a.Shutdown?)
    ensures ThreadInv(Next(s, a))
  {
    ClosingInProgress(s, Next(s, a), if a.Shutdown? then a.k else 0);
  }

  lemma ThreadAfterCloser(s: State, k: nat)
    requires MutexInv(s) && ThreadInv(s) && Enabled(s, CloserStep(k))
    ensures ThreadInv(NextCloser(s, k))
  {
    ClosingInProgress(s, NextCloser(s, k), k);
  }

  // The caller whose exchange won is still on its way to notify_all until it has done so.
  lemma ClosingInProgress(s: State, s': State, k: nat)
    requires ThreadInv(s) && |s'.closers| == |s.closers|
    requires forall m :: 0 <= m < |s.closers| && m != k ==> s'.closers[m] == s.closers[m]
    requires k < |s.closers| ==> (s.closers[k] == s'.closers[k] || s'.closers[k] == ClosingLock
                                  || s'.closers[k] == ClosingNotify || s'.notified
                                  || (s.closers[k] != ClosingLock && s.closers[k] != ClosingNotify))
    requires s'.flag && !s.flag ==> k < |s.closers| && s'.closers[k] == ClosingLock
    requires s.notified ==> s'.notified
    ensures s'.flag && !s'.notified ==>
              exists m :: 0 <= m < |s'.closers| && (s'.closers[m] == ClosingLock || s'.closers[m] == ClosingNotify)
  {
    if s'.flag && !s'.notified {
      if s.flag {
        var m :| 0 <= m < |s.closers| && (s.closers[m] == ClosingLock || s.closers[m] == ClosingNotify);
        assert s'.closers[m] == ClosingLock || s'.closers[m] == ClosingNotify;
      } else {
        assert s'.closers[k] == ClosingLock;
      }
    }
  }

  lemma WakeKept(s: State, a: Action)
    requires Inv(s) && Enabled(s, a)
    ensures WakeInv(Next(s, a))
  {
    match a
    case WorkerStep(i) => WakeAfterWorker(s, i);
    case Submit(j, t) =>
    case SubmitterStep(j) => WakeAfterSubmitter(s, j);
    case Shutdown(k) =>
    case CloserStep(k) => WakeAfterCloser(s, k);
  }

  lemma WakeAfterSubmitter(s: State, j: nat)
    requires MutexInv(s) && ThreadInv(s) && WakeInv(s) && Enabled(s, SubmitterStep(j))
    ensures WakeInv(NextSubmitter(s, j))
  {
    SubmitterShape(s, j);
    NobodyInside(s, BySubmitter(j));
    WaitersCoverSleepers(s.workers);
  }

  lemma WakeAfterCloser(s: State, k: nat)
    requires MutexInv(s) && ThreadInv(s) && WakeInv(s) && Enabled(s, CloserStep(k))
    ensures WakeInv(NextCloser(s, k))
  {
    WaitersCoverSleepers(s.workers);
  }

  lemma NobodyInside(s: State, o: Owner)
    requires MutexInv(s) && (s.owner == Nobody || s.owner == o) && !o.ByWorker?
    ensures forall i :: 0 <= i < |s.workers| ==> !WorkerInside(s.workers[i])
  {
  }

  lemma WakeAfterWorker(s: State, i: nat)
    requires Inv(s) && i < |s.workers| && WorkerEnabled(s, s.workers[i])
    ensures WakeInv(NextWorker(s, i))
  {
    WorkerShape(s, i);
    SumBounds(s.workers, ActiveWeight, i);
    CounterDeltas(s, i);
    CountersAfterWorker(s, NextWorker(s, i), i, NextPoint(s, s.workers[i]));
    TokensAfterWorker(s, i);
  }

  // `waiters_` and the active count move with the weight of the worker that steps.
  lemma CounterDeltas(s: State, i: nat)
    requires i < |s.workers| && (s.workers[i].Ended? ==> s.active > 0)
    ensures var w, w' := s.workers[i], NextPoint(s, s.workers[i]);
            && NextWorker(s, i).waiters == s.waiters + WaiterWeight(w') - WaiterWeight(w)
            && NextWorker(s, i).active == s.active + ActiveWeight(w') - ActiveWeight(w)
  {
  }

  lemma CountersAfterWorker(s: State, s': State, i: nat, w: Worker)
    requires s.waiters == Sum(s.workers, WaiterWeight) && s.active == Sum(s.workers, ActiveWeight)
    requires i < |s.workers| && s'.workers == s.workers[i := w]
    requires s'.waiters == s.waiters + WaiterWeight(w) - WaiterWeight(s.workers[i])
    requires s'.active == s.active + ActiveWeight(w) - ActiveWeight(s.workers[i])
    ensures s'.waiters == Sum(s'.workers, WaiterWeight) && s'.active == Sum(s'.workers, ActiveWeight)
  {
    SumUpdate(s.workers, WaiterWeight, i, w);
    SumUpdate(s.workers, ActiveWeight, i, w);
  }

  lemma TokensAfterWorker(s: State, i: nat)
    requires MutexInv(s) && ThreadInv(s) && WakeInv(s) && i < |s.workers| && WorkerEnabled(s, s.workers[i])
    ensures var s' := NextWorker(s, i);
            && s'.sema + Awake(s') + Owed(s') >= Min(|s'.queue|, Sleepers(s') + Awake(s'))
            && (s'.notified ==> s'.sema >= Sleepers(s'))
  {
    var w := NextPoint(s, s.workers[i]);
    assert WorkerInv(s, s.workers[i]);
    OwedAfterWorker(s, i);
    WorkerShape(s, i);
    TokenDeltas(s, i);
    hide MutexInv, ThreadInv, WorkerInv, Owed, Sum, NextWorker, NextPoint, SleepWeight, AwakeWeight;
    SumUpdate(s.workers, SleepWeight, i, w);
    SumUpdate(s.workers, AwakeWeight, i, w);
  }

  // Either the queue is empty afterwards, or a task goes with the worker that takes it, or tokens and awake
  // workers together do not fall and make up for every new sleeper.
  lemma TokenDeltas(s: State, i: nat)
    requires i < |s.workers| && WorkerEnabled(s, s.workers[i]) && WorkerInv(s, s.workers[i])
    ensures var s', w, w' := NextWorker(s, i), s.workers[i], NextPoint(s, s.workers[i]);
            var tokens, taken := s'.sema - s.sema, |s.queue| - |s'.queue|;
            var awake, asleep := AwakeWeight(w') - AwakeWeight(w), SleepWeight(w') - SleepWeight(w);
            && (|| s'.queue == []
                || (taken == 1 && tokens + awake == -1 && asleep + awake == -1)
                || (taken == 0 && tokens + awake >= 0 && asleep <= tokens))
            && (s.notified ==> asleep <= tokens)
  {
  }

  lemma OwedAfterWorker(s: State, i: nat)
    requires MutexInv(s) && i < |s.workers| && WorkerEnabled(s, s.workers[i])
    ensures Owed(NextWorker(s, i)) == Owed(s)
    ensures Owed(s) == 1 ==> !WorkerInside(s.workers[i])
  {
  }

  lemma {:induction false} WaitersCoverSleepers(ws: seq<Worker>)
    ensures Sum(ws, SleepWeight) <= Sum(ws, WaiterWeight)
    ensures (forall i :: 0 <= i < |ws| ==> !WorkerInside(ws[i])) ==>
              Sum(ws, WaiterWeight) == Sum(ws, SleepWeight) + Sum(ws, AwakeWeight)
              && Sum(ws, AwakeWeight) == Sum(ws, WokenWeight)
  {
    if ws != [] {
      WaitersCoverSleepers(ws[1..]);
      if forall i :: 0 <= i < |ws| ==> !WorkerInside(ws[i]) {
        assert !WorkerInside(ws[0]);
        forall i | 0 <= i < |ws[1..]| ensures !WorkerInside(ws[1..][i]) { assert !WorkerInside(ws[i + 1]); }
      }
    }
  }

  lemma HistoryKept(s: State, a: Action)
    requires Inv(s) && Enabled(s, a)
    ensures HistoryInv(Next(s, a))
  {
    match a
    case WorkerStep(i) => HistoryAfterWorker(s, i);
    case Submit(j, t) =>
    case SubmitterStep(j) => HistoryAfterSubmitter(s, j);
    case Shutdown(k) =>
    case CloserStep(k) =>
  }

  lemma HistoryAfterSubmitter(s: State, j: nat)
    requires HistoryInv(s) && j < |s.submitters|
    ensures HistoryInv(NextSubmitter(s, j))
  {
    hide InFlight, Held;
    var s' := NextSubmitter(s, j);
    assert s'.workers == s.workers && s'.dequeued == s.dequeued && s'.ended == s.ended;
    if s.submitters[j].ToPush? {
      assert (s.dequeued + s.queue) + [s.submitters[j].task] == s.dequeued + (s.queue + [s.submitters[j].task]);
    }
  }

  lemma HistoryAfterWorker(s: State, i: nat)
    requires MutexInv(s) && ThreadInv(s) && HistoryInv(s) && i < |s.workers| && WorkerEnabled(s, s.workers[i])
    ensures HistoryInv(NextWorker(s, i))
  {
    WorkerShape(s, i);
    HistoryDeltas(s, i);
    InFlightAfterWorker(s, NextWorker(s, i), i, NextPoint(s, s.workers[i]));
  }

  // A task moves from the queue to the worker that takes it, and from there to the ended tasks.
  lemma HistoryDeltas(s: State, i: nat)
    requires i < |s.workers| && WorkerInv(s, s.workers[i])
    ensures var w, w', s' := s.workers[i], NextPoint(s, s.workers[i]), NextWorker(s, i);
            && s'.dequeued + s'.queue == s.dequeued + s.queue
            && s'.dequeued == s.dequeued + (if w.Taking? then Held(w') else [])
            && s'.ended == s.ended + (if w.Running? then Held(w) else [])
            && (!w.Taking? && !w.Running? ==> Held(w') == Held(w))
            && (w.Taking? ==> Held(w) == []) && (w.Running? ==> Held(w') == [])
  {
    if s.workers[i].Taking? { assert s.queue == [s.queue[0]] + s.queue[1..]; }
  }

  lemma InFlightAfterWorker(s: State, s': State, i: nat, w: Worker)
    requires multiset(s.dequeued) == multiset(s.ended) + InFlight(s.workers)
    requires |s.workers| == 1 ==> s.dequeued == s.ended + Held(s.workers[0])
    requires i < |s.workers| && s'.workers == s.workers[i := w]
    requires s'.dequeued == s.dequeued + (if s.workers[i].Taking? then Held(w) else [])
    requires s'.ended == s.ended + (if s.workers[i].Running? then Held(s.workers[i]) else [])
    requires !s.workers[i].Taking? && !s.workers[i].Running? ==> Held(w) == Held(s.workers[i])
    requires s.workers[i].Taking? ==> Held(s.workers[i]) == []
    requires s.workers[i].Running? ==> Held(w) == []
    ensures multiset(s'.dequeued) == multiset(s'.ended) + InFlight(s'.workers)
    ensures |s'.workers| == 1 ==> s'.dequeued == s'.ended + Held(s'.workers[0])
  {
    InFlightUpdate(s.workers, i, w);
    var taken := if s.workers[i].Taking? then Held(w) else [];
    var done := if s.workers[i].Running? then Held(s.workers[i]) else [];
    assert multiset(s.dequeued + taken) == multiset(s.dequeued) + multiset(taken);
    assert multiset(s.ended + done) == multiset(s.ended) + multiset(done);
    Balance(multiset(s.dequeued), multiset(s.ended), InFlight(s.workers), InFlight(s'.workers),
            multiset(Held(s.workers[i])), multiset(Held(w)), multiset(taken), multiset(done));
  }

  lemma Balance(d: multiset<Task>, e: multiset<Task>, f: multiset<Task>, f': multiset<Task>,
                h: multiset<Task>, h': multiset<Task>, taken: multiset<Task>, done: multiset<Task>)
    requires d == e + f && f' + h == f + h'
    requires taken + h == done + h'
    ensures d + taken == (e + done) + f'
  {
    forall t ensures (d + taken)[t] == ((e + done) + f')[t] {
      assert (f' + h)[t] == (f + h')[t] && (taken + h)[t] == (done + h')[t];
    }
  }

  lemma StepKeepsInv(s: State, a: Action)
    requires Inv(s) && Enabled(s, a)
    ensures Inv(Next(s, a))
  {
    MutexKept(s, a);
    ThreadKept(s, a);
    WakeKept(s, a);
    HistoryKept(s, a);
  }

  lemma {:induction false} LegalRunKeepsInv(s: State, run: seq<Action>)
    requires Inv(s) && Legal(s, run)
    ensures Inv(After(s, run))
    decreases |run|
  {
    if run != [] {
      StepKeepsInv(s, run[0]);
      LegalRunKeepsInv(Next(s, run[0]), run[1..]);
    }
  }

  lemma ReachableInv(s: State)
    requires Reachable(s)
    ensures Inv(s)
  {
    var s0, run :| Initial(s0) && Legal(s0, run) && After(s0, run) == s;
    InitialInv(s0);
    LegalRunKeepsInv(s0, run);
  }

  // ---------------------------------------------------------------- no lost wakeup

  /** Whenever the mutex is free, the wait count is exactly the blocked plus the woken workers, and tokens
      plus woken workers cover the queue, however many tokens went stale or were taken by late sleepers. */
  lemma NoLostWakeup(s: State)
    requires Reachable(s) && s.owner == Nobody
    ensures s.waiters == Sleepers(s) + WokenCount(s)
    ensures s.sema + WokenCount(s) >= Min(|s.queue|, Sleepers(s) + WokenCount(s))
  {
    ReachableInv(s);
    WaitersCoverSleepers(s.workers);
  }

  /** A queue with work in it is never stuck: either the mutex is free and some worker can step, or the
      thread holding the mutex can. */
  lemma QueueNeverStuck(s: State) returns (a: Action)
    requires Reachable(s) && s.queue != [] && s.workers != []
    ensures Enabled(s, a)
    ensures s.owner == Nobody ==> a.WorkerStep?
    ensures s.owner != Nobody ==> IsStepOf(a, s.owner)
  {
    ReachableInv(s);
    if s.owner != Nobody {
      a := HolderCanStep(s);
    } else if i :| 0 <= i < |s.workers| && s.workers[i] != Sleeping {
      a := WorkerStep(i);
      assert WorkerInv(s, s.workers[i]);
    } else {
      a := WorkerStep(0);
      SumUniform(s.workers, SleepWeight, 1);
      SumUniform(s.workers, AwakeWeight, 0);
    }
  }

  lemma HolderCanStep(s: State) returns (a: Action)
    requires MutexInv(s) && s.owner != Nobody
    ensures Enabled(s, a) && IsStepOf(a, s.owner)
  {
    match s.owner
    case ByWorker(i) => a := WorkerStep(i);
    case BySubmitter(j) => a := SubmitterStep(j);
    case ByCloser(k) => a := CloserStep(k);
  }

  ghost predicate IsStepOf(a: Action, o: Owner) {
    match o
    case Nobody => false
    case ByWorker(i) => a == WorkerStep(i)
    case BySubmitter(j) => a == SubmitterStep(j)
    case ByCloser(k) => a == CloserStep(k)
  }

  /** `tasks_.front()` is only reached with a task in the queue. */
  lemma NeverTakesFromEmptyQueue(s: State, i: nat)
    requires Reachable(s) && i < |s.workers| && s.workers[i] == Taking
    ensures s.queue != [] && Next(s, WorkerStep(i)).workers[i] == Taken(s.queue[0])
  {
    ReachableInv(s);
    assert WorkerInv(s, s.workers[i]);
  }

  /** `activeTasks_` is the number of workers between its increment and its decrement, and the guard
      against decrementing zero never acts. */
  lemma ActiveCountExact(s: State)
    requires Reachable(s)
    ensures s.active == Sum(s.workers, ActiveWeight)
    ensures forall i :: 0 <= i < |s.workers| && s.workers[i] == Ended ==> s.active > 0
  {
    ReachableInv(s);
    forall i | 0 <= i < |s.workers| && s.workers[i] == Ended ensures s.active > 0 {
      SumBounds(s.workers, ActiveWeight, i);
    }
  }

  // ---------------------------------------------------------------- every run quiesces

  // Steps a worker can still take before it blocks, exits or spends a token or a task.
  function Distance(w: Worker): nat {
    match w
    case Sleeping => 0
    case Exited => 0
    case Leaving => 1
    case Releasing => 1
    case Waiting => 2
    case Taking => 3
    case Checking => 4
    case Testing => 5
    case Locking => 6
    case Relocked => 6
    case Woken => 7
    case Ended => 7
    case Running(_) => 8
    case Started(_) => 9
    case Taken(_) => 10
  }

  // What one token or one queued task can set off.
  const ROUND: nat := 8

  function SubmitterDistance(p: Submitter): nat {
    match p
    case Idle => 0
    case ToUnlock => 1
    case ToNotify => ROUND + 2
    case ToPush(_) => 2 * ROUND + 3
    case ToCheck(_) => 2 * ROUND + 4
    case ToLock(_) => 2 * ROUND + 5
  }

  function CloserDistance(c: Closer, n: nat): nat {
    match c
    case Absent => 0
    case Returned => 0
    case Joining(i) => if i <= n then n - i + 1 else 0
    case ClosingUnlock => n + 2
    case ClosingNotify => n + ROUND * n + 3
    case ClosingLock => n + ROUND * n + 4
  }

  ghost function CloserWeights(n: nat): Closer -> nat { (c: Closer) => CloserDistance(c, n) }

  ghost function Measure(s: State): nat {
    Sum(s.workers, Distance) + ROUND * s.sema + ROUND * |s.queue|
    + Sum(s.submitters, SubmitterDistance) + Sum(s.closers, CloserWeights(|s.workers|))
  }

  // The budget a call brings into the pool.
  function CallCost(a: Action, n: nat): nat {
    match a
    case Submit(_, _) => 2 * ROUND + 5
    case Shutdown(_) => n + ROUND * n + 4
    case _ => 0
  }

  predicate IsCall(a: Action) { a.Submit? || a.Shutdown? }

  /** Every step inside the pool lowers the measure; only calls raise it, by a fixed amount. */
  lemma MeasureFalls(s: State, a: Action)
    requires Reachable(s) && Enabled(s, a)
    ensures !IsCall(a) ==> Measure(Next(s, a)) < Measure(s)
    ensures IsCall(a) ==> Measure(Next(s, a)) <= Measure(s) + CallCost(a, |s.workers|)
    ensures |Next(s, a).workers| == |s.workers|
  {
    ReachableInv(s);
    hide Reachable, Sum, NextWorker, NextSubmitter, NextCloser;
    match a
    case WorkerStep(i) => MeasureAfterWorker(s, i); WorkerShape(s, i);
    case Submit(j, t) => SumUpdate(s.submitters, SubmitterDistance, j, ToLock(t));
    case SubmitterStep(j) => MeasureAfterSubmitter(s, j);
    case Shutdown(k) => SumUpdate(s.closers, CloserWeights(|s.workers|), k, ClosingLock);
    case CloserStep(k) => MeasureAfterCloser(s, k); CloserShape(s, k);
  }

  lemma MeasureAfterSubmitter(s: State, j: nat)
    requires MutexInv(s) && Enabled(s, SubmitterStep(j))
    ensures Measure(NextSubmitter(s, j)) < Measure(s)
    ensures NextSubmitter(s, j).workers == s.workers
  {
    var s' := NextSubmitter(s, j);
    SubmitterShape(s, j);
    SumUpdate(s.submitters, SubmitterDistance, j, s'.submitters[j]);
    assert SubmitterDistance(s'.submitters[j]) + ROUND * |s'.queue| + ROUND * s'.sema
           < SubmitterDistance(s.submitters[j]) + ROUND * |s.queue| + ROUND * s.sema;
  }

  lemma MeasureAfterWorker(s: State, i: nat)
    requires Inv(s) && Enabled(s, WorkerStep(i))
    ensures Measure(NextWorker(s, i)) < Measure(s)
  {
    var w := NextPoint(s, s.workers[i]);
    var s' := NextWorker(s, i);
    WorkerShape(s, i);
    assert WorkerInv(s, s.workers[i]);
    WorkerStepCost(s, i);
    hide Sum, NextWorker, Inv, WorkerInv, NextPoint, Distance;
    SumUpdate(s.workers, Distance, i, w);
  }

  lemma WorkerStepCost(s: State, i: nat)
    requires i < |s.workers| && WorkerEnabled(s, s.workers[i]) && WorkerInv(s, s.workers[i])
    ensures var s' := NextWorker(s, i);
            Distance(NextPoint(s, s.workers[i])) + ROUND * |s'.queue| + ROUND * s'.sema
            < Distance(s.workers[i]) + ROUND * |s.queue| + ROUND * s.sema
  {
  }

  lemma MeasureAfterCloser(s: State, k: nat)
    requires Inv(s) && Enabled(s, CloserStep(k))
    ensures Measure(NextCloser(s, k)) < Measure(s)
  {
    var s', n := NextCloser(s, k), |s.workers|;
    CloserShape(s, k);
    SumAtMostLength(s.workers);
    assert CloserInv(s, s.closers[k]);
    CloserStepCost(s, k);
    hide Sum, NextCloser, Inv, CloserInv, CloserDistance;
    SumUpdate(s.closers, CloserWeights(n), k, s'.closers[k]);
  }

  lemma CloserStepCost(s: State, k: nat)
    requires Enabled(s, CloserStep(k)) && CloserInv(s, s.closers[k]) && s.waiters <= |s.workers|
    ensures var s', n := NextCloser(s, k), |s.workers|;
            && CloserDistance(s'.closers[k], n) + ROUND * s'.sema < CloserDistance(s.closers[k], n) + ROUND * s.sema
            && s'.queue == s.queue
  {
  }

  lemma {:induction false} SumAtMostLength(ws: seq<Worker>)
    ensures Sum(ws, WaiterWeight) <= |ws|
  {
    if ws != [] { SumAtMostLength(ws[1..]); }
  }

  function InnerSteps(run: seq<Action>): nat {
    if run == [] then 0 else (if IsCall(run[0]) then 0 else 1) + InnerSteps(run[1..])
  }

  function CallCosts(run: seq<Action>, n: nat): nat {
    if run == [] then 0 else CallCost(run[0], n) + CallCosts(run[1..], n)
  }

  /** However the threads are scheduled, fairly or not, the number of steps they take is bounded by the
      calls made: no worker spins, and no wakeup circulates for ever. */
  lemma {:induction false} EveryRunQuiesces(s: State, run: seq<Action>)
    requires Reachable(s) && Legal(s, run)
    ensures InnerSteps(run) + Measure(After(s, run)) <= Measure(s) + CallCosts(run, |s.workers|)
    decreases |run|
  {
    if run != [] {
      MeasureFalls(s, run[0]);
      ReachableStep(s, run[0]);
      EveryRunQuiesces(Next(s, run[0]), run[1..]);
    }
  }

  ghost predicate Quiescent(s: State) {
    forall a :: Enabled(s, a) ==> IsCall(a)
  }

  /** ... and it stops only when the work is done: every accepted task has run exactly once; and if
      shutdown was called, every worker has exited and every caller of shutdown has returned. */
  lemma QuiescentMeansDone(s: State)
    requires Reachable(s) && Quiescent(s) && s.workers != []
    ensures s.queue == [] && multiset(s.ended) == multiset(s.accepted)
    ensures !s.flag ==> forall i :: 0 <= i < |s.workers| ==> s.workers[i] == Sleeping
    ensures s.flag ==> forall i :: 0 <= i < |s.workers| ==> s.workers[i] == Exited
    ensures forall k :: 0 <= k < |s.closers| ==> s.closers[k] == Absent || s.closers[k] == Returned
  {
    QuiescentFree(s);
    forall i | 0 <= i < |s.workers| ensures s.workers[i] == if s.flag then Exited else Sleeping {
      QuiescentWorker(s, i);
    }
    forall k | 0 <= k < |s.closers| ensures s.closers[k] == Absent || s.closers[k] == Returned {
      QuiescentCloser(s, k);
    }
    InFlightEmpty(s.workers);
    AcceptedInOrder(s);
  }

  lemma QuiescentCloser(s: State, k: nat)
    requires Reachable(s) && Quiescent(s) && s.owner == Nobody && k < |s.closers|
    requires s.flag ==> forall i :: 0 <= i < |s.workers| ==> s.workers[i] == Exited
    ensures s.closers[k] == Absent || s.closers[k] == Returned
  {
    ReachableInv(s);
    assert !Enabled(s, CloserStep(k)) && CloserInv(s, s.closers[k]);
  }

  lemma QuiescentFree(s: State)
    requires Reachable(s) && Quiescent(s) && s.workers != []
    ensures s.owner == Nobody && s.queue == [] && (s.flag ==> s.notified)
  {
    ReachableInv(s);
    if s.owner != Nobody {
      var a := HolderCanStep(s);
      assert false;
    }
    if s.queue != [] {
      var a := QueueNeverStuck(s);
      assert false;
    }
    if s.flag && !s.notified {
      var k := FlagLeadsToNotify(s);
      assert false;
    }
  }

  lemma QuiescentWorker(s: State, i: nat)
    requires Reachable(s) && Quiescent(s) && i < |s.workers|
    ensures s.workers[i] == if s.flag then Exited else Sleeping
  {
    QuiescentFree(s);
    ReachableInv(s);
    assert !Enabled(s, WorkerStep(i));
    assert WorkerInv(s, s.workers[i]);
    SumBounds(s.workers, SleepWeight, i);
  }

  /** Between the flip of the flag and notify_all the winning caller is never lost: it holds the mutex,
      or waits for it and gets it as soon as it is free. */
  lemma FlagLeadsToNotify(s: State) returns (k: nat)
    requires Reachable(s) && s.flag && !s.notified
    ensures k < |s.closers|
    ensures s.closers[k] == ClosingLock || s.closers[k] == ClosingNotify
    ensures s.owner == Nobody || s.owner == ByCloser(k) ==> Enabled(s, CloserStep(k))
    ensures s.closers[k] == ClosingNotify ==> Next(s, CloserStep(k)).notified
  {
    ReachableInv(s);
    k :| 0 <= k < |s.closers| && (s.closers[k] == ClosingLock || s.closers[k] == ClosingNotify);
  }

  /** After notify_all tokens suffice for every blocked worker for ever, nobody starts to wait again and
      nothing more is accepted. */
  lemma ShutdownReachesEveryWorker(s: State, a: Action)
    requires Reachable(s) && s.notified && Enabled(s, a)
    ensures s.sema >= Sleepers(s)
    ensures forall i :: 0 <= i < |s.workers| ==> s.workers[i] != Waiting && s.workers[i] != Releasing
    ensures Next(s, a).notified && Next(s, a).accepted == s.accepted
  {
    ReachableInv(s);
    forall i | 0 <= i < |s.workers| ensures s.workers[i] != Waiting && s.workers[i] != Releasing {
      assert WorkerInv(s, s.workers[i]);
    }
    if a.SubmitterStep? { assert SubmitterInv(s, s.submitters[a.j]); }
  }

  lemma ReachableStep(s: State, a: Action)
    requires Reachable(s) && Enabled(s, a)
    ensures Reachable(Next(s, a))
  {
    var s0, run :| Initial(s0) && Legal(s0, run) && After(s0, run) == s;
    LegalExtend(s0, run, a);
  }

  lemma {:induction false} LegalExtend(s: State, run: seq<Action>, a: Action)
    requires Legal(s, run) && Enabled(After(s, run), a)
    ensures Legal(s, run + [a]) && After(s, run + [a]) == Next(After(s, run), a)
    decreases |run|
  {
    if run == [] {
      assert run + [a] == [a] && [a][1..] == [];
    } else {
      assert (run + [a])[0] == run[0] && (run + [a])[1..] == run[1..] + [a];
      LegalExtend(Next(s, run[0]), run[1..], a);
    }
  }

  // ---------------------------------------------------------------- drained, exactly once, in order

  /** Tasks leave the queue in the order they were accepted; once a worker has exited none is left. */
  lemma AcceptedInOrder(s: State)
    requires Reachable(s)
    ensures s.accepted == s.dequeued + s.queue
    ensures Left(s) ==> s.queue == [] && s.dequeued == s.accepted
    ensures multiset(s.dequeued) == multiset(s.ended) + InFlight(s.workers)
  {
    ReachableInv(s);
    if Left(s) {
      var i :| 0 <= i < |s.workers| && (s.workers[i] == Exited || s.workers[i] == Leaving);
      assert WorkerInv(s, s.workers[i]);
    }
  }

  /** After the first exit no later step ever puts a task into the queue again. */
  lemma {:induction false} EmptyForEverAfterExit(s: State, run: seq<Action>)
    requires Reachable(s) && Legal(s, run)
    requires exists i :: 0 <= i < |s.workers| && s.workers[i] == Exited
    ensures After(s, run).queue == []
    decreases |run|
  {
    if run == [] {
      AcceptedInOrder(s);
    } else {
      ReachableStep(s, run[0]);
      var i :| 0 <= i < |s.workers| && s.workers[i] == Exited;
      assert Next(s, run[0]).workers[i] == Exited;
      EmptyForEverAfterExit(Next(s, run[0]), run[1..]);
    }
  }

  /** When the winning shutdown returns, every accepted task has run exactly once, and with one worker in
      the order of submission; nothing is accepted or run afterwards. */
  lemma ShutdownDrains(s: State, k: nat, run: seq<Action>)
    requires Reachable(s) && k < |s.closers| && s.closers[k] == Returned && s.workers != []
    requires Legal(s, run)
    ensures multiset(s.ended) == multiset(s.accepted) && s.queue == []
    ensures |s.workers| == 1 ==> s.ended == s.accepted
    ensures After(s, run).accepted == s.accepted && After(s, run).ended == s.ended
  {
    ReachableInv(s);
    assert CloserInv(s, s.closers[k]);
    InFlightEmpty(s.workers);
    assert s.workers[0] == Exited;
    AcceptedInOrder(s);
    NothingRunsAfterExit(s, run);
  }

  lemma {:induction false} NothingRunsAfterExit(s: State, run: seq<Action>)
    requires Reachable(s) && s.notified && Legal(s, run)
    requires forall i :: 0 <= i < |s.workers| ==> s.workers[i] == Exited
    ensures After(s, run).accepted == s.accepted && After(s, run).ended == s.ended
    decreases |run|
  {
    if run != [] {
      hide Reachable, Next, Enabled;
      ShutdownReachesEveryWorker(s, run[0]);
      ExitedStay(s, run[0]);
      ReachableStep(s, run[0]);
      NothingRunsAfterExit(Next(s, run[0]), run[1..]);
    }
  }

  lemma ExitedStay(s: State, a: Action)
    requires Enabled(s, a) && forall i :: 0 <= i < |s.workers| ==> s.workers[i] == Exited
    ensures Next(s, a).workers == s.workers && Next(s, a).ended == s.ended
  {
  }
}
