/**
 The pool and its hand-built condition variable as objects that change in place, one method for each
 kind of atomic step.  Every method is tied to PoolProtocol.Next, so what is proved there of every
 reachable state holds of every pool.
 */
module ThreadPool {
  import opened PoolProtocol

  // A counting semaphore together with the number of threads inside wait().
  class CondVar {
    var sema: nat
    var waiters: int

    constructor ()
      ensures sema == 0 && waiters == 0
    {
      sema, waiters := 0, 0;
    }

    // The three parts of wait() that touch the condition variable: counting in, the semaphore, counting out.
    method BeginWait()
      modifies this
      ensures waiters == old(waiters) + 1 && sema == old(sema)
    {
      waiters := waiters + 1;
    }

    method TakeToken()
      requires sema > 0
      modifies this
      ensures sema == old(sema) - 1 && waiters == old(waiters)
    {
      sema := sema - 1;
    }

    method EndWait()
      modifies this
      ensures waiters == old(waiters) - 1 && sema == old(sema)
    {
      waiters := waiters - 1;
    }

    method NotifyOne()
      modifies this
      ensures waiters == old(waiters) && sema == old(sema) + (if old(waiters) > 0 then 1 else 0)
    {
      if waiters > 0 { sema := sema + 1; }
    }

    method NotifyAll()
      modifies this
      ensures waiters == old(waiters) && sema == old(sema) + (if old(waiters) > 0 then old(waiters) else 0)
    {
      if waiters > 0 { sema := sema + waiters; }
    }
  }

  class ThreadPool {
    var tasks: seq<Task>
    var mutex: Owner
    const cv: CondVar
    var shutdown: bool
    var activeTasks: nat
    // Program counters of the threads that use the pool.
    var workers: seq<Worker>
    var submitters: seq<Submitter>
    var closers: seq<Closer>

    ghost var notified: bool
    ghost var accepted: seq<Task>
    ghost var dequeued: seq<Task>
    ghost var ended: seq<Task>

    ghost function View(): State
      reads this, cv
    {
      State(workers, submitters, closers, mutex, cv.sema, cv.waiters, tasks, shutdown, activeTasks,
            notified, accepted, dequeued, ended)
    }

    constructor (numWorkers: nat, numSubmitters: nat, numClosers: nat)
      ensures Initial(View()) && Reachable(View()) && fresh(cv)
      ensures |workers| == numWorkers && |submitters| == numSubmitters && |closers| == numClosers
    {
      tasks, mutex, shutdown, activeTasks := [], Nobody, false, 0;
      workers := seq(numWorkers, _ => Locking);
      submitters := seq(numSubmitters, _ => Idle);
      closers := seq(numClosers, _ => Absent);
      notified, accepted, dequeued, ended := false, [], [], [];
      cv := new CondVar();
      new;
      assert Legal(View(), []) && After(View(), []) == View();
    }

    // The worker loop up to taking a task: lock, the two tests, front and pop, leave.
    method LoopStep(i: nat)
      requires Reachable(View()) && Enabled(View(), WorkerStep(i))
      requires workers[i].Locking? || workers[i].Testing? || workers[i].Checking? || workers[i].Taking?
               || workers[i].Leaving?
      modifies this
      ensures View() == Next(old(View()), WorkerStep(i)) && Reachable(View())
    {
      ReachableStep(View(), WorkerStep(i));
      match workers[i]
      case Locking =>
        mutex := ByWorker(i);
        workers := workers[i := Testing];
      case Testing =>
        if !shutdown && tasks == [] {
          workers := workers[i := Waiting];
        } else {
          workers := workers[i := Checking];
        }
      case Checking =>
        if shutdown && tasks == [] {
          workers := workers[i := Leaving];
        } else {
          workers := workers[i := Taking];
        }
      case Taking =>
        NeverTakesFromEmptyQueue(View(), i);
        var task := tasks[0];
        tasks := tasks[1..];
        dequeued := dequeued + [task];
        workers := workers[i := Taken(task)];
      case Leaving =>
        mutex := Nobody;
        workers := workers[i := Exited];
    }

    // Inside cv_.wait(mutex_).
    method WaitStep(i: nat)
      requires Reachable(View()) && Enabled(View(), WorkerStep(i))
      requires workers[i].Waiting? || workers[i].Releasing? || workers[i].Sleeping? || workers[i].Woken?
               || workers[i].Relocked?
      modifies this, cv
      ensures View() == Next(old(View()), WorkerStep(i)) && Reachable(View())
    {
      ReachableStep(View(), WorkerStep(i));
      match workers[i]
      case Waiting =>
        cv.BeginWait();
        workers := workers[i := Releasing];
      case Releasing =>
        mutex := Nobody;
        workers := workers[i := Sleeping];
      case Sleeping =>
        cv.TakeToken();
        workers := workers[i := Woken];
      case Woken =>
        mutex := ByWorker(i);
        workers := workers[i := Relocked];
      case Relocked =>
        cv.EndWait();
        workers := workers[i := Testing];
    }

    // From the unlock after pop to the end of the iteration.
    method TaskStep(i: nat)
      requires Reachable(View()) && Enabled(View(), WorkerStep(i))
      requires workers[i].Taken? || workers[i].Started? || workers[i].Running? || workers[i].Ended?
      modifies this
      ensures View() == Next(old(View()), WorkerStep(i)) && Reachable(View())
    {
      ReachableStep(View(), WorkerStep(i));
      match workers[i]
      case Taken(task) =>
        mutex := Nobody;
        workers := workers[i := Started(task)];
      case Started(task) =>
        activeTasks := activeTasks + 1;
        workers := workers[i := Running(task)];
      case Running(task) =>  // returned or threw
        ended := ended + [task];
        workers := workers[i := Ended];
      case Ended =>
        if activeTasks > 0 { activeTasks := activeTasks - 1; }
        workers := workers[i := Locking];
    }

    method Submit(j: nat, task: Task)
      requires Reachable(View()) && Enabled(View(), PoolProtocol.Submit(j, task))
      modifies this
      ensures View() == Next(old(View()), PoolProtocol.Submit(j, task)) && Reachable(View())
    {
      ReachableStep(View(), PoolProtocol.Submit(j, task));
      submitters := submitters[j := ToLock(task)];
    }

    method SubmitterStep(j: nat)
      requires Reachable(View()) && Enabled(View(), PoolProtocol.SubmitterStep(j))
      modifies this, cv
      ensures View() == Next(old(View()), PoolProtocol.SubmitterStep(j)) && Reachable(View())
    {
      ReachableStep(View(), PoolProtocol.SubmitterStep(j));
      match submitters[j]
      case ToLock(task) =>
        mutex := BySubmitter(j);
        submitters := submitters[j := ToCheck(task)];
      case ToCheck(task) =>
        if shutdown {
          submitters := submitters[j := ToUnlock];
        } else {
          submitters := submitters[j := ToPush(task)];
        }
      case ToPush(task) =>
        tasks := tasks + [task];
        accepted := accepted + [task];
        submitters := submitters[j := ToNotify];
      case ToNotify =>
        cv.NotifyOne();
        submitters := submitters[j := ToUnlock];
      case ToUnlock =>
        mutex := Nobody;
        submitters := submitters[j := Idle];
    }

    method Shutdown(k: nat)
      requires Reachable(View()) && Enabled(View(), PoolProtocol.Shutdown(k))
      modifies this
      ensures View() == Next(old(View()), PoolProtocol.Shutdown(k)) && Reachable(View())
    {
      ReachableStep(View(), PoolProtocol.Shutdown(k));
      var was := shutdown;
      shutdown := true;
      if !was {
        closers := closers[k := ClosingLock];
      }
    }

    method CloserStep(k: nat)
      requires Reachable(View()) && Enabled(View(), PoolProtocol.CloserStep(k))
      modifies this, cv
      ensures View() == Next(old(View()), PoolProtocol.CloserStep(k)) && Reachable(View())
    {
      ReachableStep(View(), PoolProtocol.CloserStep(k));
      match closers[k]
      case ClosingLock =>
        mutex := ByCloser(k);
        closers := closers[k := ClosingNotify];
      case ClosingNotify =>
        cv.NotifyAll();
        notified := true;
        closers := closers[k := ClosingUnlock];
      case ClosingUnlock =>
        mutex := Nobody;
        closers := closers[k := Joining(0)];
      case Joining(next) =>
        if next < |workers| {
          closers := closers[k := Joining(next + 1)];
        } else {
          closers := closers[k := Returned];
        }
    }
  }
}
