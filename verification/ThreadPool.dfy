/** The pool's own code, statement by statement a run of PoolMachine. */
module ThreadPool {
  import opened Common
  import opened PoolMachine

  class ThreadPool {
    var tasks: seq<ConnId>     // m_tasks
    var stop: bool             // m_stop
    var executed: seq<ConnId>  // the tasks run so far, in order
    ghost var workers: nat
    ghost var enqueuers: nat
    ghost var machine: State

    /** Nobody is inside enqueueTask, and the fields are what a run of the machine left. */
    ghost predicate Valid()
      reads this
    {
      && Reachable(workers, enqueuers, machine)
      && tasks == machine.queue && stop == machine.stop && machine.owner == Free
      && forall e :: 0 <= e < |machine.enqs| ==> machine.enqs[e] == Outside
    }

    constructor (numThreads: nat, ghost callers: nat)
      ensures Valid() && workers == numThreads && enqueuers == callers
      ensures tasks == [] && !stop && executed == []
      ensures machine == Init(numThreads, callers)
    {
      tasks, stop, executed := [], false, [];
      workers, enqueuers, machine := numThreads, callers, Init(numThreads, callers);
      new;
      InitReachable(numThreads, callers);
    }

    ghost method Advance(st: Step)
      requires Reachable(workers, enqueuers, machine) && Enabled(machine, st)
      modifies this`machine
      ensures Reachable(workers, enqueuers, machine) && machine == Next(old(machine), st)
    {
      Extend(workers, enqueuers, machine, st);
      machine := Next(machine, st);
    }

    /** `w` is the worker that notify_one happens to wake, if any sleeps. */
    method EnqueueTask(task: ConnId, ghost e: nat, ghost w: nat)
      requires Valid() && e < enqueuers
      requires if w < |machine.workers| then machine.workers[w] == Blocked else w == |machine.workers| && Blocked !in machine.workers
      modifies this`tasks, this`machine
      ensures Valid()
      ensures tasks == old(tasks) + [task]
      ensures machine.enqueued == old(machine.enqueued) + [task] && machine.started == old(machine.started)
      ensures machine.workers == if w < |old(machine.workers)| then old(machine.workers)[w := Woken] else old(machine.workers)
    {
      ReachableInv(workers, enqueuers, machine);
      Advance(CallEnqueue(e, task));
      Advance(EnqLock(e));
      tasks := tasks + [task];
      Advance(EnqPush(e));
      Advance(EnqNotify(e, w));
    }

    /** The first two statements of the destructor; joining comes when the workers have left. */
    method Stop()
      requires Valid() && machine.dtor == NotCalled
      modifies this`stop, this`machine
      ensures Valid() && stop && machine.dtor == Notified
      ensures machine.workers == WakeAll(old(machine).workers)
      ensures machine.enqueued == old(machine.enqueued) && machine.started == old(machine.started)
      ensures machine.stopMark == |machine.started|
    {
      stop := true;
      Advance(StoreStop);
      Advance(NotifyAll);
    }

    /** From the loop test, or from the wakeup, through the mutex and past the wait predicate. */
    ghost method AdvanceToPredicate(w: nat)
      requires Valid() && w < |machine.workers|
      requires machine.workers[w] == Woken || (machine.workers[w] == LoopTop && !stop)
      modifies this`machine
      ensures Reachable(workers, enqueuers, machine)
      ensures machine == old(machine).(owner := ByWorker(w),
                workers := old(machine).workers[w := if stop || tasks != [] then Ready else AboutToBlock])
    {
      if machine.workers[w] == LoopTop {
        Advance(LoopTest(w));
      }
      Advance(WorkerLock(w));
      Advance(Evaluate(w));
    }

    /**
      One round of the worker loop, from its top or, `resumed`, from the wait it slept in.  `took`
      says that a task was executed; otherwise the worker sleeps or has left.  Only a resumed
      worker can take a task after stop.
    */
    method Round(w: nat, resumed: bool) returns (took: bool)
      requires Valid() && w < |machine.workers| && machine.workers[w] == if resumed then Woken else LoopTop
      modifies this`tasks, this`executed, this`machine
      ensures Valid() && machine.enqueued == old(machine.enqueued)
      ensures took == (old(tasks) != [] && (resumed || !stop))
      ensures if took then tasks == old(tasks)[1..] && executed == old(executed) + [old(tasks)[0]]
              else tasks == old(tasks) && executed == old(executed)
      ensures machine.workers ==
                old(machine.workers)[w := if took then LoopTop else if stop then Exited else Blocked]
    {
      if !resumed && stop {
        Advance(LoopTest(w));
        return false;
      }
      AdvanceToPredicate(w);
      if !stop && tasks == [] {
        Advance(Block(w));
        return false;
      }
      if stop && tasks == [] {
        Advance(Take(w));
        return false;
      }
      TakeFront(w);
      return true;
    }

    /** The pop under the mutex, and the task itself after it. */
    method TakeFront(w: nat)
      requires Reachable(workers, enqueuers, machine) && tasks == machine.queue != [] && stop == machine.stop
      requires w < |machine.workers| && machine.workers[w] == Ready
      modifies this`tasks, this`executed, this`machine
      ensures Reachable(workers, enqueuers, machine) && tasks == machine.queue && stop == machine.stop
      ensures tasks == old(tasks)[1..] && executed == old(executed) + [old(tasks)[0]]
      ensures machine.owner == Free && machine.enqs == old(machine).enqs && machine.enqueued == old(machine).enqueued
      ensures machine.workers == old(machine).workers[w := LoopTop]
    {
      var task := tasks[0];
      tasks := tasks[1..];
      Advance(Take(w));
      executed := executed + [task];
      Advance(Finish(w));
    }

    /**
      Worker `w` on its own, until it sleeps or leaves.  Before stop it executes everything queued, in
      order, and goes to sleep over an empty queue.  After stop it leaves: at once from the top
      of its loop, after at most one more task when it is resumed from the wait.
    */
    method WorkerThread(w: nat, resumed: bool)
      requires Valid() && w < |machine.workers| && machine.workers[w] == if resumed then Woken else LoopTop
      modifies this`tasks, this`executed, this`machine
      ensures Valid() && machine.enqueued == old(machine.enqueued)
      ensures !stop ==> tasks == [] && executed == old(executed) + old(tasks)
      ensures stop ==>
                var n := if resumed && old(tasks) != [] then 1 else 0;
                tasks == old(tasks)[n..] && executed == old(executed) + old(tasks)[..n]
      ensures machine.workers == old(machine.workers)[w := if stop then Exited else Blocked]
    {
      var took := Round(w, resumed);
      ghost var done := if took then 1 else 0;
      while took
        invariant Valid() && machine.enqueued == old(machine.enqueued)
        invariant done <= |old(tasks)| && tasks == old(tasks)[done..] && executed == old(executed) + old(tasks)[..done]
        invariant machine.workers == old(machine.workers)[w := if took then LoopTop else if stop then Exited else Blocked]
        invariant stop ==> done == if resumed && old(tasks) != [] then 1 else 0
        invariant !took ==> stop || tasks == []
        decreases took, |tasks|
      {
        took := Round(w, false);
        if took {
          assert old(tasks)[..done + 1] == old(tasks)[..done] + [old(tasks)[done]];
          done := done + 1;
        }
      }
      assert done == |old(tasks)| ==> old(tasks)[..done] == old(tasks);
    }
  }
}
