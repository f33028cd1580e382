/** The command queue as a sequential state machine. Every public method of the queue is
    one atomic transition, and one pass of the worker loop is one more: `StepAsWritten`
    for the loop as the code has it, `Step` for the loop as its comment intends it. Besides the
    buffer and the two lifecycle flags, a state records whether the worker thread is
    still alive and, as history, the log of executed items, the items accepted since the
    last clear, and the length of the log when that clear happened. */
module QueueMachine {
  import opened Commands

  datatype State = State(
    queue: seq<Item>,     // the buffer, head first
    paused: bool,         // the `_paused` event
    running: bool,        // the `_running` event
    workerAlive: bool,    // the worker thread has not exited
    executed: seq<Item>,  // every item the worker has started, in order
    accepted: seq<Item>,  // every item appended since the last clear, in order
    epoch: nat)           // |executed| at the last clear

  /** A freshly constructed queue: empty, running, not paused, worker started. */
  function Init(): (r: State)
  {
    State([], false, true, true, [], [], 0)
  }

  /** `add_command`: append the item when its command is admitted, else change nothing. */
  function AddCommand(s: State, item: Item): (r: State)
  {
    if Admit(item.command) == Enqueued then
      s.(queue := s.queue + [item], accepted := s.accepted + [item])
    else
      s
  }

  function Pause(s: State): (r: State)
  {
    s.(paused := true)
  }

  function Resume(s: State): (r: State)
  {
    s.(paused := false)
  }

  /** `clear`: empty the buffer, then set and clear the paused event. */
  function Clear(s: State): (r: State)
  {
    s.(queue := [], paused := false, accepted := [], epoch := |s.executed|)
  }

  /** `stop`: clear running, set paused, and wait for the worker to exit. */
  function Stop(s: State): (r: State)
  {
    s.(running := false, paused := true, workerAlive := false)
  }

  /** Pop the head item and run it. The handler catches `Exception`, so the item is
      dropped whatever it raises; an escaping `BaseException` ends the worker. */
  function Execute(s: State): (r: State)
    requires s.queue != []
  {
    s.(queue := s.queue[1..],
       executed := s.executed + [s.queue[0]],
       workerAlive := s.workerAlive && s.queue[0].command.outcome != Escapes)
  }

  /** The worker dequeues when it is alive, running, not held by pause, and has work. */
  predicate CanDequeue(s: State)
  {
    s.running && s.workerAlive && !s.paused && s.queue != []
  }

  /** One pass of the worker loop as its comment intends it: while paused, the worker
      waits and dequeues nothing. */
  function Step(s: State): (r: State)
  {
    if CanDequeue(s) then Execute(s) else s
  }

  /** One pass of the worker loop as written: the wait on the paused event returns at
      once because the event is set, so the paused flag never holds the worker. */
  function StepAsWritten(s: State): (r: State)
  {
    if s.running && s.workerAlive && s.queue != [] then Execute(s) else s
  }

  /** Which worker loop a run has: the loop as its comment intends it, or as written. */
  datatype Worker = Intended | AsWritten

  /** One pass of the chosen worker loop. */
  function Pass(s: State, w: Worker): (r: State)
  {
    match w
    case Intended => Step(s)
    case AsWritten => StepAsWritten(s)
  }

  /** Everything that can happen to a queue, one atomic transition each. */
  datatype Action = Submit(item: Item) | DoPause | DoResume | DoClear | DoStop | WorkerStep

  function Apply(s: State, a: Action, w: Worker): (r: State)
  {
    match a
    case Submit(item) => AddCommand(s, item)
    case DoPause => Pause(s)
    case DoResume => Resume(s)
    case DoClear => Clear(s)
    case DoStop => Stop(s)
    case WorkerStep => Pass(s, w)
  }

  /** The state after the actions of `t`, in order, with worker loop `w`. */
  function Run(s: State, t: seq<Action>, w: Worker): (r: State)
    decreases |t|
  {
    if t == [] then s else Run(Apply(s, t[0], w), t[1..], w)
  }

  /** The items of the admitted submissions of `t`, in submission order. */
  function Admitted(t: seq<Action>): (items: seq<Item>)
    decreases |t|
  {
    if t == [] then []
    else if t[0].Submit? && Admit(t[0].item.command) == Enqueued then [t[0].item] + Admitted(t[1..])
    else Admitted(t[1..])
  }

  /** What every reachable state satisfies: only admitted commands are buffered, the
      worker has exited once running is cleared, and the items executed since the last
      clear followed by the buffer are exactly the items accepted since that clear. */
  ghost predicate Invariant(s: State)
  {
    && (forall i :: 0 <= i < |s.queue| ==> Admit(s.queue[i].command) == Enqueued)
    && (!s.running ==> !s.workerAlive)
    && s.epoch <= |s.executed|
    && s.executed[s.epoch..] + s.queue == s.accepted
  }
}
