# Command queue of the cobot control server

This project models `CommandQueue` from `command_queue.py`. The queue is meant to push
robot-arm commands through a single worker, in the order they were submitted. The demo driver
`demo_command_queue.py` uses it that way, queueing arm moves. The tool server `server.py` does
not use it and calls the arm directly. The queue
holds a FIFO buffer of deferred calls `(command, args, kwargs)` and two lifecycle flags,
`running` and `paused`. A background worker pops the head call and runs it. Other threads may
add commands, pause, resume, clear or stop the queue, and read a state snapshot.

The model treats each public method as one atomic transition. One pass of the worker loop is
one more transition. The worker loop comes in two versions, `StepAsWritten` for the loop as the
code has it and `Step` for the loop as its comment intends it (see Findings). The model has three
layers:

- `Commands` (`commands.dfy`) holds the work items. A command is opaque. It records whether it
  has a `__name__`, whether it is `callable`, and how calling it ends: it returns, it raises an
  `Exception`, or it raises a `BaseException` outside `Exception`.
- `QueueMachine` (`queue_machine.dfy`) is the queue as a state machine over values. Besides the
  buffer, the flags and whether the worker thread is still alive, it keeps history: the log of
  executed items, the items accepted since the last clear, and where that clear fell in the log.
  `Run` applies a sequence of transitions with a chosen worker loop (`Worker`, applied by `Pass`).
- `CommandQueues.CommandQueue` (`command_queue.dfy`) is the object itself. Its fields are updated
  in place, and each method is proved to perform its transition of `QueueMachine`. So the run
  properties in `QueueProperties` (`queue_properties.dfy`) hold of the object too.

## Model

| member | source | states |
|---|---|---|
| `CommandQueues.CommandQueue.constructor` | command_queue.py:23-31 | a new queue is empty, running, not paused, and its worker is started |
| `CommandQueues.CommandQueue.AddCommand` | command_queue.py:33-41 | a named callable is appended at the tail as `(command, args, kwargs)`, and earlier items, flags and log are unchanged; a value without `__name__` raises (line 35 reads it first), and a named non-callable is rejected; neither enqueues anything |
| `CommandQueues.CommandQueue.Pause` | command_queue.py:43-46 | sets paused; buffer, running and worker are unchanged |
| `CommandQueues.CommandQueue.Resume` | command_queue.py:48-51 | clears paused; buffer, running and worker are unchanged |
| `CommandQueues.CommandQueue.Clear` | command_queue.py:53-60 | empties the buffer and reports the previous length as the removed count; paused ends false whatever it was before; running and the log are unchanged |
| `CommandQueues.CommandQueue.Stop` | command_queue.py:62-67 | running becomes false, paused true, and the worker has exited when it returns; buffer and log are unchanged |
| `CommandQueues.CommandQueue.GetState` | command_queue.py:69-75 | the snapshot is exactly running, paused and the current buffer length |
| `CommandQueues.CommandQueue.Step` | command_queue.py:79-92 | (corrected worker) a live, running, unpaused worker with work removes exactly the head, logs it and returns it, whether the call returns or raises; an escaping `BaseException` ends the worker; otherwise nothing changes |
| `QueueProperties.AsWrittenIsUnpausedStep` | command_queue.py:79-92 | the loop as written behaves exactly as the intended loop would with the paused flag cleared and then restored, and the two agree on every unpaused state |
| `QueueProperties.InitialState` | command_queue.py:23-28 | the initial state satisfies the invariant and is empty, running, not paused |
| `QueueProperties.ApplyPreservesInvariant` | command_queue.py:33-92 | every transition, with either worker loop, keeps the invariant: only admitted commands are buffered, the worker is gone once running is cleared, and the executed items since the last clear followed by the buffer equal the items accepted since that clear |
| `QueueProperties.RunPreservesInvariant` | command_queue.py:22-92 | every state reachable by any sequence of transitions, with either worker loop, satisfies the invariant |
| `QueueProperties.ApplyWithoutClear` | command_queue.py:40-84 | a single transition other than clear appends only at the tail and takes only from the head of log-plus-buffer |
| `QueueProperties.FifoWithoutClear` | command_queue.py:39-92 | with either worker loop and no clear in a run, log followed by buffer grows by exactly the admitted submissions, in submission order, and the old log stays a prefix |
| `QueueProperties.SubmissionOrderIsExecutionOrder` | command_queue.py:39-92 | from a new queue with no clear, the executed items are a prefix of the admitted submissions, in order, each once, and the buffer holds the rest |
| `QueueProperties.ExecutedSinceLastClear` | command_queue.py:53-92 | with clears in a run and either worker loop, items executed since the last clear followed by the buffer are exactly the items admitted after that clear, in order; the clear's position in the log is the log length at that clear, and the log at that clear is a prefix of the final log |
| `QueueProperties.PausedNeverDrains` | command_queue.py:79-84 | (corrected worker) while paused and until a resume or clear, the queue stays paused, nothing executes, and the buffer grows by exactly the admitted submissions, in order |
| `QueueProperties.StoppedStaysStopped` | command_queue.py:62-79 | with either worker loop, once running is cleared and the worker has exited, no transition sets running again or executes anything, whatever remains buffered |
| `QueueProperties.NothingRunsAfterStop` | command_queue.py:62-66 | with either worker loop, after stop, any later run reports not running and executes nothing more |
| `QueueProperties.StepTakesHead` | command_queue.py:79-92 | a dequeuing step removes exactly the head and logs it, and the worker survives a returning or raising call; an empty or stopped queue is unchanged by a step |
| `QueueProperties.PauseResumeIdempotent` | command_queue.py:43-51 | pause and resume are idempotent, the later of the two wins, and neither touches buffer or running |
| `QueueProperties.ClearBeforeAnyStep` | command_queue.py:53-60 | items submitted and then cleared before any worker step never execute; the buffer is empty and unpaused |
| `QueueProperties.ScenarioInOrder` | command_queue.py:39-92 | submitting A, B, C and then three steps executes A, B, C in that order |
| `QueueProperties.ScenarioFailureIsolated` | command_queue.py:86-90 | a command that raises is dropped and the command behind it still executes |
| `QueueProperties.ScenarioExampleScript` | command_queue.py:105-121 | the example script (three submissions, a run, pause, a submission, resume, clear, a submission, stop) executes all five tasks in submission order and ends stopped with an empty buffer; at the pass during the pause, the intended loop has run three tasks and the loop as written four |
| `QueueProperties.PausedDrainsAsWritten` | command_queue.py:79-81 | as written, a paused queue with one item executes that item in one pass of the loop, where the corrected step executes nothing |

## Findings

| source | as written | input that shows it | evidently intended | confidence | as-written member | corrected member |
|---|---|---|---|---|---|---|
| command_queue.py:80-81 | when the paused event is set, the worker calls `self._paused.wait()`; `threading.Event.wait` blocks only while the flag is clear, so it returns at once and the worker goes on to pop and run the head | `pause()` then `add_command(f)` on a running queue: the next pass of the loop runs `f` while `get_state()` reports paused | the comment "Block until unpaused": a paused worker dequeues nothing until `resume`, `clear` or `stop` | high; not executed | `QueueMachine.StepAsWritten`, `QueueProperties.PausedDrainsAsWritten` | `QueueMachine.Step`, `QueueProperties.PausedNeverDrains` |

The class uses the corrected `Step`; the run lemmas hold for both loops unless they name one. Since the set-then-clear of the paused
event in `clear` (lines 59-60) and the `set` in `stop` (line 65) exist to release a worker parked
on that wait, they are modelled only by their effect on the flag.

## Left out

- Threads, `threading.Lock`, `Thread.start`/`join` and the `time.sleep(0.1)` poll (lines 25-30, 66, 81, 93) are left out. Each method and each pass of the loop is one atomic step. `stop` waiting for the worker to exit is modelled as the worker being gone when `Stop` returns.
- Lock details that only matter under real concurrency are left out: `add_command` appends without the lock (line 40), the lock is held while a command runs (lines 82-88), and `get_state` reads without the lock.
- Logging configuration and every `logger` call are left out, because they are output with no functional contract. The one log line that matters is line 35: it reads `command.__name__`, so it is modelled as the `MissingName` outcome.
- `CommandQueues.CommandQueue.Clear`: `clear` returns nothing and only logs the removed count. The model returns that count.
- `CommandQueues.CommandQueue.AddCommand`: `add_command` returns nothing, so the caller gets no signal of acceptance. The model returns the accept or reject result (`Enqueued`, `NotCallable`), which the source only logs (lines 37-38, 41). The `AttributeError` raised to the caller at line 35 is returned as `MissingName` rather than raised.
- The call `command(*args, **kwargs)` (line 88) is a foreign call. Its effect is abstracted to the command's recorded outcome, and the arm it drives is not modelled.
- Commands never call back into their own queue in the model. In the source the worker holds the non-reentrant `threading.Lock` (line 29) while a command runs (lines 82-88). A command that calls `clear` would deadlock the worker at line 55. A command that calls `stop` would make line 66 join the worker's own thread, which raises `RuntimeError`, and line 89 catches it.
- Arguments are stored as immutable values (`Value`, `Item`). In the source the queued tuple holds references, so a list the caller changes after `add_command` reaches the command changed. `FloatValue` holds an exact real where Python has a binary float. Neither affects any property of the queue.
- An in-flight item cannot be interrupted by `stop`, because each pass of the loop is atomic in the model.
- The example tasks and the sleeps of the `__main__` script (lines 95-123) are not modelled. Its sequence of calls is `ScenarioExampleScript`, with each sleep as some passes of the worker loop.
- server.py is not part of this model. It holds tool wrappers over the arm's serial SDK and the tool-server framework.
- demo_command_queue.py is not part of this model. It is an interactive driver with an endless loop and real hardware calls.
