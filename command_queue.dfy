/** The command queue object: a buffer of deferred commands that a single worker drains
    in submission order, with pause, resume, clear and stop controls. Each method is one
    atomic step; `Step` is one pass of the worker loop. The ghost fields keep the history
    the ordering guarantee speaks about, and `Model` ties the object to the state machine
    of `QueueMachine`, so every property proved there holds of the object. */
module CommandQueues {
  import opened Commands
  import QueueMachine

  /** The snapshot `get_state` returns. */
  datatype QueueState = QueueState(running: bool, paused: bool, queueLength: nat)

  class CommandQueue {
    var queue: seq<Item>
    var paused: bool
    var running: bool
    var workerAlive: bool
    ghost var executed: seq<Item>
    ghost var accepted: seq<Item>
    ghost var epoch: nat

    ghost function Model(): QueueMachine.State
      reads this
    {
      QueueMachine.State(queue, paused, running, workerAlive, executed, accepted, epoch)
    }

    ghost predicate Valid()
      reads this
    {
      QueueMachine.Invariant(Model())
    }

    /** A new queue is empty, running and not paused, and its worker is started. */
    constructor ()
      ensures Valid() && Model() == QueueMachine.Init()
      ensures queue == [] && running && !paused && workerAlive
    {
      queue := [];
      paused := false;
      running := true;
      workerAlive := true;
      executed, accepted, epoch := [], [], 0;
    }

    /** Append `command` with its arguments at the tail when it is a named callable. A
        value without `__name__` raises `AttributeError` before the callable check; a
        named value that is not callable is rejected. Either way nothing is appended. */
    method AddCommand(command: Command, args: seq<Value>, kwargs: map<string, Value>)
      returns (r: Submission)
      requires Valid()
      modifies this
      ensures Valid()
      ensures r == MissingName <==> command.name.None?
      ensures r == NotCallable <==> command.name.Some? && !command.isCallable
      ensures r == Enqueued <==> command.name.Some? && command.isCallable
      ensures r == Enqueued ==> queue == old(queue) + [Item(command, args, kwargs)]
      ensures r != Enqueued ==> queue == old(queue)
      ensures paused == old(paused) && running == old(running) && workerAlive == old(workerAlive)
      ensures executed == old(executed)
      ensures Model() == QueueMachine.AddCommand(old(Model()), Item(command, args, kwargs))
    {
      if command.name.None? {
        return MissingName;
      }
      if !command.isCallable {
        return NotCallable;
      }
      var item := Item(command, args, kwargs);
      queue := queue + [item];
      accepted := accepted + [item];
      r := Enqueued;
    }

    /** Set the paused flag; the buffer and running are untouched. */
    method Pause()
      requires Valid()
      modifies this
      ensures Valid()
      ensures paused
      ensures queue == old(queue) && running == old(running) && workerAlive == old(workerAlive)
      ensures Model() == QueueMachine.Pause(old(Model()))
    {
      paused := true;
    }

    /** Clear the paused flag; the buffer and running are untouched. */
    method Resume()
      requires Valid()
      modifies this
      ensures Valid()
      ensures !paused
      ensures queue == old(queue) && running == old(running) && workerAlive == old(workerAlive)
      ensures Model() == QueueMachine.Resume(old(Model()))
    {
      paused := false;
    }

    /** Empty the buffer and report how many items were dropped; the set-then-clear of the
        paused event leaves the queue unpaused whatever it was before. */
    method Clear() returns (removed: nat)
      requires Valid()
      modifies this
      ensures Valid()
      ensures removed == |old(queue)|
      ensures queue == [] && !paused
      ensures running == old(running) && workerAlive == old(workerAlive) && executed == old(executed)
      ensures Model() == QueueMachine.Clear(old(Model()))
    {
      removed := |queue|;
      queue := [];
      accepted := [];
      epoch := |executed|;
      paused := true;
      paused := false;
    }

    /** Clear running, set paused, and return once the worker has exited. */
    method Stop()
      requires Valid()
      modifies this
      ensures Valid()
      ensures !running && paused && !workerAlive
      ensures queue == old(queue) && executed == old(executed)
      ensures Model() == QueueMachine.Stop(old(Model()))
    {
      running := false;
      paused := true;
      workerAlive := false;
    }

    /** The current flags and buffer length. */
    method GetState() returns (state: QueueState)
      ensures state.running == running
      ensures state.paused == paused
      ensures state.queueLength == |queue|
    {
      state := QueueState(running, paused, |queue|);
    }

    /** One pass of the worker loop. A live, running, unpaused worker with work pops the
        head and runs it; the item is dropped whether the call returns or raises, and a
        `BaseException` outside `Exception` ends the worker. Otherwise nothing changes. */
    method Step() returns (ran: Option<Item>)
      requires Valid()
      modifies this
      ensures Valid()
      ensures ran.Some? <==> old(running && workerAlive && !paused && queue != [])
      ensures ran.Some? ==>
        && ran.value == old(queue)[0]
        && queue == old(queue)[1..]
        && executed == old(executed) + [ran.value]
        && workerAlive == (ran.value.command.outcome != Escapes)
      ensures ran.None? ==> queue == old(queue) && executed == old(executed) && workerAlive == old(workerAlive)
      ensures paused == old(paused) && running == old(running)
      ensures Model() == QueueMachine.Step(old(Model()))
    {
      if !running || !workerAlive || paused || queue == [] {
        return None;
      }
      var item := queue[0];
      queue := queue[1..];
      executed := executed + [item];
      ran := Some(item);
      if item.command.outcome == Escapes {
        workerAlive := false;
      }
    }
  }
}
