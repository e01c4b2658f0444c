// src/concurrency/TransactionQueue.cpp, and ThreadPool.cpp as far as one thread
// can use it: submitting tasks and stopping a pool without workers.

module Queues {
  import opened Basics
  import opened Domain

  class TransactionQueue {
    var queue: seq<Transaction>
    var closed: bool

    constructor ()
      ensures queue == [] && !closed
    {
      queue := [];
      closed := false;
    }

    method Enqueue(txn: Transaction) returns (accepted: bool)
      modifies this`queue
      ensures accepted <==> !closed
      ensures queue == old(queue) + (if closed then [] else [txn])
    {
      if closed { return false; }
      queue := queue + [txn];
      accepted := true;
    }

    method TryPop() returns (txn: Option<Transaction>)
      modifies this`queue
      ensures old(queue) == [] ==> txn == None && queue == []
      ensures old(queue) != [] ==> txn.Some? && old(queue) == [txn.value] + queue
    {
      if queue == [] { return None; }
      txn := Some(queue[0]);
      queue := queue[1..];
    }

    // wait_pop once its wait is over: something is queued, or the queue is closed,
    // or a stop was requested. Either of the last two still drains.
    method WaitPop(stopRequested: bool) returns (txn: Option<Transaction>)
      requires queue != [] || closed || stopRequested
      modifies this`queue
      ensures old(queue) == [] ==> txn == None && queue == []
      ensures old(queue) != [] ==> txn.Some? && old(queue) == [txn.value] + queue
    {
      txn := TryPop();
    }

    method Close()
      modifies this`closed
      ensures closed
    {
      closed := true;
    }
  }

  // A task is a number; `ran` records the order in which tasks were executed.
  class ThreadPool {
    var tasks: seq<nat>
    var stopping: bool
    var ran: seq<nat>

    constructor ()
      ensures tasks == [] && !stopping && ran == []
    {
      tasks, stopping, ran := [], false, [];
    }

    method Submit(task: nat) returns (accepted: bool)
      modifies this`tasks
      ensures accepted <==> !stopping
      ensures tasks == old(tasks) + (if stopping then [] else [task])
    {
      if stopping { return false; }
      tasks := tasks + [task];
      accepted := true;
    }

    // stop() after the joins: whatever is left runs here, in order, each once.
    method Stop()
      modifies this
      ensures stopping && tasks == [] && ran == old(ran) + old(tasks)
    {
      stopping := true;
      while tasks != []
        invariant stopping && ran + tasks == old(ran) + old(tasks)
        decreases |tasks|
      {
        var task := tasks[0];
        assert tasks == [task] + tasks[1..];
        tasks := tasks[1..];
        ran := ran + [task];
      }
    }
  }
}
