/** What the command queue guarantees over whole runs: the invariant, first-in first-out
    execution, a stop that is final, a paused queue that never drains (for the worker loop
    as intended), and concrete call sequences, among them the one the module's own example
    script makes. Unless a lemma names a worker loop, it holds for both: the loop as written
    and the loop as intended. */
module QueueProperties {
  import opened Commands
  import opened QueueMachine

  /** A new queue is empty, running, not paused, and satisfies the invariant. */
  lemma InitialState()
    ensures Invariant(Init())
    ensures Init().queue == [] && Init().running && !Init().paused && Init().workerAlive
  {
  }

  /** The loop as written is the intended loop with the paused flag ignored: it behaves
      as the intended step of the same state unpaused, and leaves the flag as it was. */
  lemma AsWrittenIsUnpausedStep(s: State)
    ensures StepAsWritten(s) == Step(s.(paused := false)).(paused := s.paused)
    ensures !s.paused ==> StepAsWritten(s) == Step(s)
  {
  }

  /** Every transition keeps the invariant, whichever worker loop runs. */
  lemma ApplyPreservesInvariant(s: State, a: Action, w: Worker)
    requires Invariant(s)
    ensures Invariant(Apply(s, a, w))
  {
  }

  lemma {:induction false} RunPreservesInvariant(s: State, t: seq<Action>, w: Worker)
    requires Invariant(s)
    ensures Invariant(Run(s, t, w))
    decreases |t|
  {
    if t != [] {
      ApplyPreservesInvariant(s, t[0], w);
      RunPreservesInvariant(Apply(s, t[0], w), t[1..], w);
    }
  }

  lemma {:induction false} RunConcat(s: State, t1: seq<Action>, t2: seq<Action>, w: Worker)
    ensures Run(s, t1 + t2, w) == Run(Run(s, t1, w), t2, w)
    decreases |t1|
  {
    if t1 == [] {
      assert t1 + t2 == t2;
    } else {
      assert (t1 + t2)[0] == t1[0];
      assert (t1 + t2)[1..] == t1[1..] + t2;
      RunConcat(Apply(s, t1[0], w), t1[1..], t2, w);
    }
  }

  /** The run of the first `i + 1` actions is the run of the first `i` followed by action `i`. */
  lemma RunPrefix(s: State, t: seq<Action>, i: nat, w: Worker)
    requires i < |t|
    ensures Run(s, t[..i + 1], w) == Apply(Run(s, t[..i], w), t[i], w)
  {
    assert t[..i + 1] == t[..i] + [t[i]];
    RunConcat(s, t[..i], [t[i]], w);
    assert [t[i]][1..] == [];
  }

  /** A run of three actions applies them in turn. */
  lemma RunThree(s: State, t: seq<Action>, w: Worker)
    requires |t| == 3
    ensures Run(s, t, w) == Apply(Apply(Apply(s, t[0], w), t[1], w), t[2], w)
  {
    var s1 := Apply(s, t[0], w);
    var s2 := Apply(s1, t[1], w);
    assert t[1..][1..][1..] == [];
    assert Run(s2, t[1..][1..], w) == Apply(s2, t[2], w);
    assert Run(s1, t[1..], w) == Run(s2, t[1..][1..], w);
  }

  /** A run split into five phases, and the run of its first three. */
  lemma RunFivePhases(s: State, c1: seq<Action>, c2: seq<Action>, c3: seq<Action>, c4: seq<Action>, c5: seq<Action>, w: Worker)
    ensures Run(s, c1 + c2 + c3, w) == Run(Run(Run(s, c1, w), c2, w), c3, w)
    ensures Run(s, c1 + c2 + c3 + c4 + c5, w) == Run(Run(Run(s, c1 + c2 + c3, w), c4, w), c5, w)
  {
    RunConcat(s, c1, c2, w);
    RunConcat(s, c1 + c2, c3, w);
    RunConcat(s, c1 + c2 + c3, c4, w);
    RunConcat(s, c1 + c2 + c3 + c4, c5, w);
  }

  lemma {:induction false} AdmittedConcat(t1: seq<Action>, t2: seq<Action>)
    ensures Admitted(t1 + t2) == Admitted(t1) + Admitted(t2)
    decreases |t1|
  {
    if t1 == [] {
      assert t1 + t2 == t2;
    } else {
      assert (t1 + t2)[0] == t1[0];
      assert (t1 + t2)[1..] == t1[1..] + t2;
      AdmittedConcat(t1[1..], t2);
    }
  }

  /** The admitted submissions of a trace are those of its first action, then those of the rest. */
  lemma AdmittedHead(t: seq<Action>)
    requires t != []
    ensures Admitted(t) == Admitted([t[0]]) + Admitted(t[1..])
  {
    AdmittedConcat([t[0]], t[1..]);
    assert [t[0]] + t[1..] == t;
  }

  predicate NoClear(t: seq<Action>)
  {
    forall i :: 0 <= i < |t| ==> !t[i].DoClear?
  }

  lemma NoClearTail(t: seq<Action>)
    requires t != [] && NoClear(t)
    ensures NoClear(t[1..])
  {
    forall i | 0 <= i < |t[1..]| ensures !t[1..][i].DoClear? {
      assert t[1..][i] == t[i + 1];
    }
  }

  /** Growing by `head` and then by `rest` is growing by `head + rest`. */
  lemma Regroup(x: seq<Item>, y: seq<Item>, z: seq<Item>, head: seq<Item>, rest: seq<Item>)
    requires y == x + head && z == y + rest
    ensures z == x + (head + rest)
  {
  }

  /** One transition other than a clear moves admitted items from the buffer to the log
      only at the head, and appends an admitted submission at the tail. */
  lemma ApplyWithoutClear(s: State, a: Action, w: Worker)
    requires !a.DoClear?
    ensures var r := Apply(s, a, w);
      && r.executed + r.queue == s.executed + s.queue + Admitted([a])
      && r.accepted == s.accepted + Admitted([a])
      && r.epoch == s.epoch
      && s.executed <= r.executed
  {
  }

  /** Without a clear, nothing is lost and nothing is reordered: the log followed by the
      buffer grows by exactly the admitted submissions, in submission order. */
  lemma {:induction false} FifoWithoutClear(s: State, t: seq<Action>, w: Worker)
    requires NoClear(t)
    ensures var r := Run(s, t, w);
      && r.executed + r.queue == s.executed + s.queue + Admitted(t)
      && r.accepted == s.accepted + Admitted(t)
      && r.epoch == s.epoch
      && s.executed <= r.executed
    decreases |t|
  {
    if t != [] {
      var s' := Apply(s, t[0], w);
      NoClearTail(t);
      FifoWithoutClear(s', t[1..], w);
      var r := Run(s', t[1..], w);
      assert Run(s, t, w) == r;
      ApplyWithoutClear(s, t[0], w);
      AdmittedHead(t);
      Regroup(s.executed + s.queue, s'.executed + s'.queue, r.executed + r.queue, Admitted([t[0]]), Admitted(t[1..]));
      Regroup(s.accepted, s'.accepted, r.accepted, Admitted([t[0]]), Admitted(t[1..]));
    }
  }

  /** From a new queue and without a clear, the items run in the order they were submitted,
      each once: the log is a prefix of the admitted submissions and the buffer holds the rest. */
  lemma SubmissionOrderIsExecutionOrder(t: seq<Action>, w: Worker)
    requires NoClear(t)
    ensures var r := Run(Init(), t, w);
      && r.executed + r.queue == Admitted(t)
      && r.executed <= Admitted(t)
  {
    FifoWithoutClear(Init(), t, w);
    var r := Run(Init(), t, w);
    assert Init().executed + Init().queue + Admitted(t) == Admitted(t);
    assert r.executed == (r.executed + r.queue)[..|r.executed|];
  }

  /** The ordering guarantee in general: if `t[k]` is the last clear of the run, the log
      splits at that clear. What ran before it stays a prefix of the log; the items run
      after it followed by the buffer are exactly the items admitted after it, in
      submission order; so an item still buffered at the clear never runs. */
  lemma ExecutedSinceLastClear(s: State, t: seq<Action>, k: nat, w: Worker)
    requires Invariant(s)
    requires k < |t| && t[k].DoClear?
    requires forall j :: k < j < |t| ==> !t[j].DoClear?
    ensures Invariant(Run(s, t, w))
    ensures Run(s, t, w).epoch == |Run(s, t[..k + 1], w).executed|
    ensures Run(s, t[..k + 1], w).executed <= Run(s, t, w).executed
    ensures var r := Run(s, t, w);
      r.executed[r.epoch..] + r.queue == Admitted(t[k + 1..])
  {
    var before, after := t[..k + 1], t[k + 1..];
    assert t == before + after;
    RunConcat(s, before, after, w);
    assert before == t[..k] + [DoClear];
    RunConcat(s, t[..k], [DoClear], w);
    var c := Run(s, before, w);
    assert c == Clear(Run(s, t[..k], w));
    assert NoClear(after) by {
      forall i | 0 <= i < |after| ensures !after[i].DoClear? {
        assert after[i] == t[k + 1 + i];
      }
    }
    FifoWithoutClear(c, after, w);
    RunPreservesInvariant(s, t, w);
  }

  predicate KeepsPaused(a: Action)
  {
    !a.DoResume? && !a.DoClear?
  }

  /** One transition that neither resumes nor clears leaves a paused queue paused, runs
      nothing, and appends only an admitted submission. */
  lemma ApplyKeepsPaused(s: State, a: Action)
    requires s.paused && KeepsPaused(a)
    ensures var r := Apply(s, a, Intended);
      r.paused && r.executed == s.executed && r.queue == s.queue + Admitted([a])
  {
    assert [a][1..] == [];
  }

  lemma KeepsPausedTail(t: seq<Action>)
    requires t != [] && forall i :: 0 <= i < |t| ==> KeepsPaused(t[i])
    ensures forall i :: 0 <= i < |t[1..]| ==> KeepsPaused(t[1..][i])
  {
    forall i | 0 <= i < |t[1..]| ensures KeepsPaused(t[1..][i]) {
      assert t[1..][i] == t[i + 1];
    }
  }

  /** With the loop as intended, while paused, submissions still land in the buffer but
      nothing leaves it: until a resume or a clear, the log is unchanged and the buffer
      grows by exactly the admitted submissions. */
  lemma {:induction false} PausedNeverDrains(s: State, t: seq<Action>)
    requires s.paused
    requires forall i :: 0 <= i < |t| ==> KeepsPaused(t[i])
    ensures var r := Run(s, t, Intended);
      && r.paused
      && r.executed == s.executed
      && r.queue == s.queue + Admitted(t)
    decreases |t|
  {
    if t != [] {
      var s' := Apply(s, t[0], Intended);
      ApplyKeepsPaused(s, t[0]);
      KeepsPausedTail(t);
      PausedNeverDrains(s', t[1..]);
      var r := Run(s', t[1..], Intended);
      assert Run(s, t, Intended) == r;
      AdmittedHead(t);
      Regroup(s.queue, s'.queue, r.queue, Admitted([t[0]]), Admitted(t[1..]));
    }
  }

  /** Once running is cleared (and so the worker has exited) it is never set again and no
      further item executes, whatever is still buffered. */
  lemma {:induction false} StoppedStaysStopped(s: State, t: seq<Action>, w: Worker)
    requires !s.running && !s.workerAlive
    ensures var r := Run(s, t, w);
      !r.running && !r.workerAlive && r.executed == s.executed
    decreases |t|
  {
    if t != [] {
      StoppedStaysStopped(Apply(s, t[0], w), t[1..], w);
    }
  }

  /** After `stop`, whatever happens, the queue reports not running and runs nothing more. */
  lemma NothingRunsAfterStop(s: State, t: seq<Action>, w: Worker)
    ensures var r := Run(Stop(s), t, w);
      !r.running && r.executed == s.executed
  {
    StoppedStaysStopped(Stop(s), t, w);
  }

  /** A worker step on a running, unpaused queue with work removes exactly the head and
      logs it, whether the command returns or raises; on an empty queue it changes nothing. */
  lemma StepTakesHead(s: State)
    ensures CanDequeue(s) ==>
      && Step(s).queue == s.queue[1..]
      && Step(s).executed == s.executed + [s.queue[0]]
      && (s.queue[0].command.outcome != Escapes ==> Step(s).workerAlive)
    ensures s.queue == [] ==> Step(s) == s
    ensures !s.running ==> Step(s) == s
  {
  }

  /** Pause and resume only touch the paused flag, and each is idempotent. */
  lemma PauseResumeIdempotent(s: State)
    ensures Pause(Pause(s)) == Pause(s) && Resume(Resume(s)) == Resume(s)
    ensures Resume(Pause(s)) == Resume(s) && Pause(Resume(s)) == Pause(s)
    ensures Pause(s).paused && !Resume(s).paused
    ensures Pause(s).queue == Resume(s).queue == s.queue
    ensures Pause(s).running == Resume(s).running == s.running
  {
  }

  predicate NoStep(t: seq<Action>)
  {
    forall i :: 0 <= i < |t| ==> !t[i].WorkerStep?
  }

  /** Without a worker step nothing executes. */
  lemma {:induction false} NoStepNoExecution(s: State, t: seq<Action>, w: Worker)
    requires NoStep(t)
    ensures Run(s, t, w).executed == s.executed
    decreases |t|
  {
    if t != [] {
      forall i | 0 <= i < |t[1..]| ensures !t[1..][i].WorkerStep? {
        assert t[1..][i] == t[i + 1];
      }
      NoStepNoExecution(Apply(s, t[0], w), t[1..], w);
    }
  }

  /** Items submitted and then cleared before the worker reaches them never execute. */
  lemma ClearBeforeAnyStep(t: seq<Action>, w: Worker)
    requires NoStep(t)
    ensures var r := Run(Init(), t + [DoClear], w);
      r.executed == [] && r.queue == [] && !r.paused
  {
    RunConcat(Init(), t + [DoClear], [], w);
    RunPrefix(Init(), t + [DoClear], |t|, w);
    assert (t + [DoClear])[..|t|] == t;
    assert (t + [DoClear])[..|t| + 1] == t + [DoClear];
    NoStepNoExecution(Init(), t, w);
  }

    /** Three admitted submissions to a new queue are buffered in order. */
  lemma SubmitThree(a1: Item, a2: Item, a3: Item, w: Worker)
    requires Admit(a1.command) == Enqueued && Admit(a2.command) == Enqueued && Admit(a3.command) == Enqueued
    ensures Run(Init(), [Submit(a1), Submit(a2), Submit(a3)], w)
      == Init().(queue := [a1, a2, a3], accepted := [a1, a2, a3])
  {
    var s1 := Init().(queue := [a1], accepted := [a1]);
    var s2 := Init().(queue := [a1, a2], accepted := [a1, a2]);
    assert Apply(Init(), Submit(a1), w) == s1;
    assert Apply(s1, Submit(a2), w) == s2;
    assert Apply(s2, Submit(a3), w) == Init().(queue := [a1, a2, a3], accepted := [a1, a2, a3]);
    RunThree(Init(), [Submit(a1), Submit(a2), Submit(a3)], w);
  }

  /** Three passes drain three buffered items in order; the worker survives unless the
      last of them escapes. */
  lemma DrainThree(a1: Item, a2: Item, a3: Item, w: Worker)
    requires a1.command.outcome != Escapes && a2.command.outcome != Escapes
    ensures Run(Init().(queue := [a1, a2, a3], accepted := [a1, a2, a3]), [WorkerStep, WorkerStep, WorkerStep], w)
      == Init().(executed := [a1, a2, a3], accepted := [a1, a2, a3], workerAlive := a3.command.outcome != Escapes)
  {
    var s3 := Init().(queue := [a1, a2, a3], accepted := [a1, a2, a3]);
    var s4 := Init().(queue := [a2, a3], executed := [a1], accepted := [a1, a2, a3]);
    var s5 := Init().(queue := [a3], executed := [a1, a2], accepted := [a1, a2, a3]);
    var s6 := Init().(executed := [a1, a2, a3], accepted := [a1, a2, a3], workerAlive := a3.command.outcome != Escapes);
    assert Step(s3) == s4;
    assert Step(s4) == s5;
    assert Step(s5) == s6;
    AsWrittenIsUnpausedStep(s3);
    AsWrittenIsUnpausedStep(s4);
    AsWrittenIsUnpausedStep(s5);
    RunThree(s3, [WorkerStep, WorkerStep, WorkerStep], w);
  }

/** Submitting A, B, C and letting the worker take three steps runs A, B and C in order,
      each once, provided neither A nor B ends the worker. */
  lemma ScenarioInOrder(a: Item, b: Item, c: Item, w: Worker)
    requires Admit(a.command) == Enqueued && Admit(b.command) == Enqueued && Admit(c.command) == Enqueued
    requires a.command.outcome != Escapes && b.command.outcome != Escapes
    ensures var r := Run(Init(), [Submit(a), Submit(b), Submit(c), WorkerStep, WorkerStep, WorkerStep], w);
      r.executed == [a, b, c] && r.queue == []
  {
    var submits, passes := [Submit(a), Submit(b), Submit(c)], [WorkerStep, WorkerStep, WorkerStep];
    assert [Submit(a), Submit(b), Submit(c), WorkerStep, WorkerStep, WorkerStep] == submits + passes;
    RunConcat(Init(), submits, passes, w);
    SubmitThree(a, b, c, w);
    DrainThree(a, b, c, w);
  }

  /** A command that raises is dropped and the one behind it still runs. */
  lemma ScenarioFailureIsolated(a: Item, b: Item, w: Worker)
    requires Admit(a.command) == Enqueued && Admit(b.command) == Enqueued
    requires a.command.outcome == Raises
    ensures var r := Run(Init(), [Submit(a), Submit(b), WorkerStep, WorkerStep], w);
      r.executed == [a, b] && r.queue == [] && r.workerAlive == (b.command.outcome != Escapes)
  {
    var t := [Submit(a), Submit(b), WorkerStep, WorkerStep];
    var s1 := AddCommand(Init(), a);
    var s2 := AddCommand(s1, b);
    var s3 := Step(s2);
    var s4 := Step(s3);
    assert s2.queue == [a, b];
    assert s3.queue == [b] && s3.executed == [a] && s3.workerAlive;
    assert s4.queue == [] && s4.executed == [a, b];
    AsWrittenIsUnpausedStep(s2);
    AsWrittenIsUnpausedStep(s3);
    calc {
      Run(Init(), t, w);
      Run(s1, t[1..], w);
      { assert t[1..][1..] == t[2..]; }
      Run(s2, t[2..], w);
      { assert t[2..][1..] == t[3..]; }
      Run(s3, t[3..], w);
      { assert t[3..][1..] == []; }
      Run(s4, [], w);
    }
  }

  /** The calls of the module's example script, with each of its sleeps as worker passes:
      three submissions and a run, a pause with one more submission and a pass while paused,
      a resume and a run, a clear with one more submission and a run, then stop. */
  function ExampleScript(a1: Item, a2: Item, a3: Item, a4: Item, a5: Item): (script: seq<Action>)
  {
    [Submit(a1), Submit(a2), Submit(a3)]
    + [WorkerStep, WorkerStep, WorkerStep]   // the first sleep
    + [DoPause, Submit(a4), WorkerStep]      // submitted while paused, then a sleep
    + [DoResume, WorkerStep, DoClear]        // a sleep after the resume
    + [Submit(a5), WorkerStep, DoStop]       // a sleep before the stop
  }

  /** Where the example script stands after its pass while paused: the loop as intended
      still holds the fourth task, the loop as written has run it. */
  function AfterPausedPass(a1: Item, a2: Item, a3: Item, a4: Item, w: Worker): (r: State)
  {
    match w
    case Intended => Init().(queue := [a4], paused := true, executed := [a1, a2, a3], accepted := [a1, a2, a3, a4])
    case AsWritten => Init().(paused := true, executed := [a1, a2, a3, a4], accepted := [a1, a2, a3, a4])
  }

  /** The example script up to the pass while paused. */
  lemma ScriptUntilPause(a1: Item, a2: Item, a3: Item, a4: Item, w: Worker)
    requires Admit(a1.command) == Enqueued && Admit(a2.command) == Enqueued && Admit(a3.command) == Enqueued
    requires Admit(a4.command) == Enqueued
    requires a1.command.outcome != Escapes && a2.command.outcome != Escapes
    requires a3.command.outcome != Escapes && a4.command.outcome != Escapes
    ensures Run(Run(Run(Init(), [Submit(a1), Submit(a2), Submit(a3)], w), [WorkerStep, WorkerStep, WorkerStep], w), [DoPause, Submit(a4), WorkerStep], w)
      == AfterPausedPass(a1, a2, a3, a4, w)
  {
    var s3 := Init().(queue := [a1, a2, a3], accepted := [a1, a2, a3]);
    var s6 := Init().(executed := [a1, a2, a3], accepted := [a1, a2, a3]);
    SubmitThree(a1, a2, a3, w);
    DrainThree(a1, a2, a3, w);
    RunThree(s6, [DoPause, Submit(a4), WorkerStep], w);
  }

  /** The example script from the resume to the stop, from where the pass while paused left it. */
  lemma ScriptAfterPause(a1: Item, a2: Item, a3: Item, a4: Item, a5: Item, w: Worker)
    requires Admit(a5.command) == Enqueued && a4.command.outcome != Escapes
    ensures Run(Run(AfterPausedPass(a1, a2, a3, a4, w), [DoResume, WorkerStep, DoClear], w), [Submit(a5), WorkerStep, DoStop], w)
      == Init().(running := false, paused := true, workerAlive := false,
                  executed := [a1, a2, a3, a4, a5], accepted := [a5], epoch := 4)
  {
    var s9 := AfterPausedPass(a1, a2, a3, a4, w);
    var s12 := Init().(executed := [a1, a2, a3, a4], epoch := 4);
    var s13 := Init().(queue := [a5], executed := [a1, a2, a3, a4], accepted := [a5], epoch := 4);
    assert Run(s9, [DoResume, WorkerStep, DoClear], w) == s12 by {
      RunThree(s9, [DoResume, WorkerStep, DoClear], w);
      AsWrittenIsUnpausedStep(Resume(s9));
    }
    RunThree(s12, [Submit(a5), WorkerStep, DoStop], w);
    AsWrittenIsUnpausedStep(s13);
  }

  /** The example script runs all five tasks in submission order and ends stopped, with
      either worker loop. They differ only in when the fourth task runs: the loop as
      intended holds it until the resume, the loop as written runs it during the pause. */
  lemma ScenarioExampleScript(a1: Item, a2: Item, a3: Item, a4: Item, a5: Item, w: Worker)
    requires Admit(a1.command) == Enqueued && Admit(a2.command) == Enqueued && Admit(a3.command) == Enqueued
    requires Admit(a4.command) == Enqueued && Admit(a5.command) == Enqueued
    requires a1.command.outcome != Escapes && a2.command.outcome != Escapes
    requires a3.command.outcome != Escapes && a4.command.outcome != Escapes
    ensures var r := Run(Init(), ExampleScript(a1, a2, a3, a4, a5), w);
      r.executed == [a1, a2, a3, a4, a5] && r.queue == [] && !r.running
    ensures var p := Run(Init(), ExampleScript(a1, a2, a3, a4, a5)[..9], w);
      p.paused && p.executed == if w == Intended then [a1, a2, a3] else [a1, a2, a3, a4]
  {
    var c1, c2, c3 := [Submit(a1), Submit(a2), Submit(a3)], [WorkerStep, WorkerStep, WorkerStep], [DoPause, Submit(a4), WorkerStep];
    var c4, c5 := [DoResume, WorkerStep, DoClear], [Submit(a5), WorkerStep, DoStop];
    ScriptUntilPause(a1, a2, a3, a4, w);
    ScriptAfterPause(a1, a2, a3, a4, a5, w);
    var t := ExampleScript(a1, a2, a3, a4, a5);
    assert t[..9] == c1 + c2 + c3;
    RunFivePhases(Init(), c1, c2, c3, c4, c5, w);
  }

  /** As written, pause does not hold the worker: on a paused queue with one admitted item,
      a pass of the loop as written executes it, where the intended step executes nothing. */
  lemma PausedDrainsAsWritten(item: Item)
    requires Admit(item.command) == Enqueued
    ensures var s := Pause(AddCommand(Init(), item));
      && s.paused
      && StepAsWritten(s).executed == [item] && StepAsWritten(s).queue == []
      && Step(s) == s
  {
  }
}
