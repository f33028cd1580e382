/** The work items held by a command queue: a deferred call, kept abstract, with its
    positional and named arguments. */
module Commands {

  datatype Option<+T> = None | Some(value: T)

  /** How a deferred call ends when the worker invokes it.
      `Raises` is an exception derived from `Exception`, which the worker catches;
      `Escapes` is a `BaseException` outside `Exception` (SystemExit, KeyboardInterrupt),
      which the worker's handler does not catch and which ends the worker thread. */
  datatype Outcome = Returns | Raises | Escapes

  /** An argument value of the deferred call; only its identity matters to the queue. */
  datatype Value =
    | NoneValue
    | BoolValue(b: bool)
    | IntValue(i: int)
    | FloatValue(f: real)
    | StrValue(s: string)
    | ListValue(items: seq<Value>)

  /** The object passed as `command`: its `__name__` attribute when it has one, whether
      `callable` holds of it, and the outcome that calling it has. */
  datatype Command = Command(name: Option<string>, isCallable: bool, outcome: Outcome)

  /** One queued entry: the command with its `*args` and `**kwargs`. */
  datatype Item = Item(command: Command, args: seq<Value>, kwargs: map<string, Value>)

  /** What `add_command` does with a command: append it, reject it without an exception
      (not callable), or raise `AttributeError` to the caller because the log line that
      comes first reads `command.__name__`. */
  datatype Submission = Enqueued | NotCallable | MissingName

  /** The checks `add_command` makes, in the order it makes them. */
  function Admit(c: Command): (verdict: Submission)
  {
    if c.name.None? then MissingName
    else if !c.isCallable then NotCallable
    else Enqueued
  }

}
