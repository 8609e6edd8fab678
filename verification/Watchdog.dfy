/** `LeaseWatchdog` of `worker_recovery.py`: its thread and the main thread, interleaved one atomic step at a time. */
module Watchdog {
  import opened Utf8

  /** Where the watchdog thread is in `_run`. */
  datatype ThreadAt = Unstarted | Waiting | Beating | Renewing | Checking | Reporting | Cleaning | Ended

  /** Where the main thread is: outside, inside the `with` block, in `__exit__`, or past it. */
  datatype MainAt = Outside | Inside | Joining | Testing | Reading | Returned | Raised

  /** The three events, and three things no code stores: the client calls made, those made after the stop, and whether a
      failed call found the lease not completed. */
  datatype State = State(
    thread: ThreadAt,
    main: MainAt,
    stop: bool,
    completed: bool,
    failed: bool,
    calls: nat,
    late: nat,
    missed: bool,
    stuck: bool)

  const INITIAL: State := State(Unstarted, Outside, false, false, false, 0, 0, false, false)

  /** How a client call ends: normally, with an OSError or a RuntimeError, or with something the thread does not
      catch. */
  datatype Ending = Fine | Caught | Uncaught

  datatype Step =
    // the main thread
    | Enter
    | MarkCompleted
    | SetStop
    | JoinReturns
    | TestAlive
    | TestFailed
    // the watchdog thread
    | Wake
    | Heartbeat(ending: Ending)
    | Renew(ending: Ending)
    | TestCompleted
    | SetFailed
    | CleanUp

  predicate Enabled(s: State, step: Step)
  {
    match step
    case Enter => s.main.Outside?
    case MarkCompleted => s.main.Inside?
    case SetStop => s.main.Inside?
    case JoinReturns => s.main.Joining?
    case TestAlive => s.main.Testing?
    case TestFailed => s.main.Reading?
    case Wake => s.thread.Waiting?
    case Heartbeat(_) => s.thread.Beating?
    case Renew(_) => s.thread.Renewing?
    case TestCompleted => s.thread.Checking?
    case SetFailed => s.thread.Reporting?
    case CleanUp => s.thread.Cleaning?
  }

  function AfterCall(s: State, ending: Ending, next: ThreadAt): State
  {
    s.(thread := if ending.Fine? then next else if ending.Caught? then Checking else Ended,
       calls := s.calls + 1,
       late := if s.stop then s.late + 1 else s.late)
  }

  /** One step. `join` may time out at any moment; `is_alive` tells whether the thread has ended. */
  function Apply(s: State, step: Step): State
  {
    match step
    case Enter => s.(main := Inside, thread := Waiting)
    case MarkCompleted => s.(completed := true)
    case SetStop => s.(main := Joining, stop := true)
    case JoinReturns => s.(main := Testing)
    case TestAlive => if s.thread.Ended? then s.(main := Reading) else s.(main := Raised, stuck := true)
    case TestFailed => s.(main := if s.failed then Raised else Returned)
    case Wake => s.(thread := if s.stop then Ended else Beating)
    case Heartbeat(ending) => AfterCall(s, ending, Renewing)
    case Renew(ending) => AfterCall(s, ending, Waiting)
    case TestCompleted => if s.completed then s.(thread := Ended) else s.(thread := Reporting, missed := true)
    case SetFailed => s.(thread := Cleaning, failed := true)
    case CleanUp => s.(thread := Ended)
  }

  /** The state after an interleaving, None if some step of it could not be taken. */
  function After(steps: seq<Step>): Option<State>
  {
    if steps == [] then Some(INITIAL)
    else
      var before := After(steps[..|steps| - 1]);
      if before.Some? && Enabled(before.value, steps[|steps| - 1]) then Some(Apply(before.value, steps[|steps| - 1]))
        else None
  }

  function CallsLeft(at: ThreadAt): nat
  {
    if at.Beating? then 2 else if at.Renewing? then 1 else 0
  }

  /** What holds between any two steps. */
  predicate Invariant(s: State)
  {
    && (s.thread.Unstarted? <==> s.main.Outside?)
    && (s.stop <==> !s.main.Outside? && !s.main.Inside?)
    && (s.missed <==> s.thread.Reporting? || s.failed)
    && (s.thread.Reporting? ==> !s.failed)
    && (s.failed ==> s.thread.Cleaning? || s.thread.Ended?)
    && (s.main.Reading? || s.main.Returned? ==> s.thread.Ended?)
    && (s.main.Returned? ==> !s.failed)
    && (s.stuck ==> s.main.Raised?)
    && (s.main.Raised? ==> s.stuck || s.failed)
    && (s.stop ==> s.late + CallsLeft(s.thread) <= 2)
    && (!s.stop ==> s.late == 0)
  }

  lemma Preserved(s: State, step: Step)
    requires Invariant(s) && Enabled(s, step)
    ensures Invariant(Apply(s, step))
  {
  }

  lemma {:induction false} Always(steps: seq<Step>)
    requires After(steps).Some?
    ensures Invariant(After(steps).value)
  {
    if steps != [] {
      hide Invariant, Enabled, Apply;
      Always(steps[..|steps| - 1]);
      Preserved(After(steps[..|steps| - 1]).value, steps[|steps| - 1]);
    }
  }

  lemma EndedStep(s: State, step: Step)
    requires Enabled(s, step) && s.thread.Ended? && !s.main.Outside?
    ensures var n := Apply(s, step);
            n.thread.Ended? && !n.main.Outside? && n.calls == s.calls && n.missed == s.missed
  {
  }

  /** Once the thread has ended it takes no step, so what it counts stands still. */
  lemma {:induction false} EndedForGood(steps: seq<Step>, k: nat)
    requires After(steps).Some? && k <= |steps|
    requires After(steps[..k]).Some? && After(steps[..k]).value.thread.Ended? && !After(steps[..k]).value.main.Outside?
    ensures var earlier, now := After(steps[..k]).value, After(steps).value;
            now.thread.Ended? && !now.main.Outside? && now.calls == earlier.calls && now.missed == earlier.missed
  {
    if k == |steps| {
      assert steps[..k] == steps;
    } else {
      hide Enabled, Apply;
      var front := steps[..|steps| - 1];
      assert front[..k] == steps[..k];
      EndedForGood(front, k);
      EndedStep(After(front).value, steps[|steps| - 1]);
    }
  }

  lemma MissedStep(s: State, step: Step)
    requires s.missed
    ensures Apply(s, step).missed
  {
  }

  lemma {:induction false} MissedForGood(steps: seq<Step>, k: nat)
    requires After(steps).Some? && k <= |steps|
    requires After(steps[..k]).Some? && After(steps[..k]).value.missed
    ensures After(steps).value.missed
  {
    if k == |steps| {
      assert steps[..k] == steps;
    } else {
      hide Enabled, Apply;
      var front := steps[..|steps| - 1];
      assert front[..k] == steps[..k];
      MissedForGood(front, k);
      MissedStep(After(front).value, steps[|steps| - 1]);
    }
  }

  /** A failure the thread caught and whose check found the lease not completed is never lost: in no interleaving does
      `__exit__` return normally, be it before or after. */
  lemma FailureNeverLost(steps: seq<Step>, k: nat)
    requires After(steps).Some? && k <= |steps|
    requires After(steps[..k]).Some? && After(steps[..k]).value.missed
    ensures !After(steps).value.main.Returned?
  {
    hide After;
    MissedForGood(steps, k);
    Always(steps);
  }

  /** If `__exit__` has returned normally after k steps, the thread has ended, and in whatever follows it makes no
      call. */
  lemma SilentAfterReturn(steps: seq<Step>, k: nat)
    requires After(steps).Some? && k <= |steps|
    requires After(steps[..k]).Some? && After(steps[..k]).value.main.Returned?
    ensures After(steps[..k]).value.thread.Ended? && !After(steps[..k]).value.missed
    ensures After(steps).value.calls == After(steps[..k]).value.calls
  {
    hide After;
    Always(steps[..k]);
    EndedForGood(steps, k);
  }

  /** `__exit__` raises only for a reason: the thread was still alive after `join`, or a failure was found not
      completed. */
  lemma RaisesForReason(steps: seq<Step>)
    requires After(steps).Some? && After(steps).value.main.Raised?
    ensures After(steps).value.stuck || After(steps).value.missed
  {
    hide After;
    Always(steps);
  }

  /** After the stop the thread makes at most two more calls, the rest of the round it was in. */
  lemma FewLateCalls(steps: seq<Step>)
    requires After(steps).Some?
    ensures After(steps).value.late <= 2
  {
    hide After;
    Always(steps);
  }

  lemma CleaningStep(s: State, step: Step)
    requires Invariant(s) && Enabled(s, step) && step != CleanUp && (s.failed ==> s.thread.Cleaning?)
    ensures Apply(s, step).failed ==> Apply(s, step).thread.Cleaning?
  {
  }

  lemma {:induction false} StillCleaning(steps: seq<Step>)
    requires After(steps).Some? && CleanUp !in steps
    ensures After(steps).value.failed ==> After(steps).value.thread.Cleaning?
  {
    if steps != [] {
      hide Invariant, Enabled, Apply;
      var front, step := steps[..|steps| - 1], steps[|steps| - 1];
      assert step in steps;
      StillCleaning(front);
      Always(front);
      CleaningStep(After(front).value, step);
    }
  }

  /** A thread that reported a failure has cleaned up the containers before it ended. */
  lemma CleansUpBeforeEnding(steps: seq<Step>)
    requires After(steps).Some? && After(steps).value.failed && After(steps).value.thread.Ended?
    ensures CleanUp in steps
  {
    hide After;
    if CleanUp !in steps { StillCleaning(steps); }
  }

  lemma Extend(steps: seq<Step>, s: State, step: Step)
    requires After(steps) == Some(s) && Enabled(s, step)
    ensures After(steps + [step]) == Some(Apply(s, step))
  {
    assert (steps + [step])[..|steps|] == steps;
  }

  /** A failure found after `mark_completed` is not held against the lease: some interleaving with one returns
      normally. */
  lemma LateFailureForgiven() returns (steps: seq<Step>)
    ensures Renew(Caught) in steps && After(steps).Some? && After(steps).value.main.Returned?
  {
    hide After;
    steps := [];
    var s := INITIAL;
    assert After([]) == Some(INITIAL) by { Initially(); }
    Extend(steps, s, Enter); s, steps := Apply(s, Enter), steps + [Enter];
    Extend(steps, s, Wake); s, steps := Apply(s, Wake), steps + [Wake];
    Extend(steps, s, Heartbeat(Fine)); s, steps := Apply(s, Heartbeat(Fine)), steps + [Heartbeat(Fine)];
    Extend(steps, s, MarkCompleted); s, steps := Apply(s, MarkCompleted), steps + [MarkCompleted];
    Extend(steps, s, Renew(Caught)); s, steps := Apply(s, Renew(Caught)), steps + [Renew(Caught)];
    Extend(steps, s, SetStop); s, steps := Apply(s, SetStop), steps + [SetStop];
    Extend(steps, s, TestCompleted); s, steps := Apply(s, TestCompleted), steps + [TestCompleted];
    Extend(steps, s, JoinReturns); s, steps := Apply(s, JoinReturns), steps + [JoinReturns];
    Extend(steps, s, TestAlive); s, steps := Apply(s, TestAlive), steps + [TestAlive];
    Extend(steps, s, TestFailed); s, steps := Apply(s, TestFailed), steps + [TestFailed];
  }

  /** An exception the thread does not catch ends it and sets nothing: some interleaving in which the only heartbeat
      fails so, and the lease is never completed, returns normally. */
  lemma UncaughtFailureLost() returns (steps: seq<Step>)
    ensures Heartbeat(Uncaught) in steps && After(steps).Some?
    ensures After(steps).value.main.Returned? && !After(steps).value.completed && After(steps).value.calls == 1
  {
    hide After;
    steps := [];
    var s := INITIAL;
    assert After([]) == Some(INITIAL) by { Initially(); }
    Extend(steps, s, Enter); s, steps := Apply(s, Enter), steps + [Enter];
    Extend(steps, s, Wake); s, steps := Apply(s, Wake), steps + [Wake];
    Extend(steps, s, Heartbeat(Uncaught)); s, steps := Apply(s, Heartbeat(Uncaught)), steps + [Heartbeat(Uncaught)];
    Extend(steps, s, SetStop); s, steps := Apply(s, SetStop), steps + [SetStop];
    Extend(steps, s, JoinReturns); s, steps := Apply(s, JoinReturns), steps + [JoinReturns];
    Extend(steps, s, TestAlive); s, steps := Apply(s, TestAlive), steps + [TestAlive];
    Extend(steps, s, TestFailed); s, steps := Apply(s, TestFailed), steps + [TestFailed];
  }

  // ---- which failed calls can end in a normal return ----

  predicate FailedCall(step: Step)
  {
    (step.Heartbeat? || step.Renew?) && !step.ending.Fine?
  }

  predicate ReturnsAfter(steps: seq<Step>)
  {
    After(steps).Some? && After(steps).value.main.Returned?
  }

  /** The failure can still be let go: `__exit__` has not raised, and the thread does not catch the exception, or will
      find the lease completed, because it is or because the `with` block can still mark it so. */
  predicate Forgivable(s: State, call: Step)
    requires FailedCall(call)
  {
    !s.main.Raised? && (call.ending.Uncaught? || s.completed || s.main.Inside?)
  }

  /** No way leads to a normal return from here. */
  predicate Doomed(s: State)
  {
    || s.main.Raised?
    || s.missed
    || (s.thread.Checking? && !s.completed && (s.main.Joining? || s.main.Testing?))
  }

  lemma DoomedStep(s: State, step: Step)
    requires Invariant(s) && Enabled(s, step) && Doomed(s)
    ensures Doomed(Apply(s, step))
  {
  }

  lemma DoomedNow(s: State, call: Step)
    requires Invariant(s) && Enabled(s, call) && FailedCall(call) && !Forgivable(s, call)
    ensures Doomed(Apply(s, call))
  {
  }

  lemma {:induction false} DoomedForGood(steps: seq<Step>, more: seq<Step>)
    requires After(steps).Some? && Doomed(After(steps).value)
    requires After(steps + more).Some?
    ensures Doomed(After(steps + more).value)
  {
    var all := steps + more;
    if more == [] {
      assert all == steps;
    } else {
      hide Enabled, Apply, Doomed, Invariant;
      var n := |more| - 1;
      assert all[..|all| - 1] == steps + more[..n];
      DoomedForGood(steps, more[..n]);
      Always(steps + more[..n]);
      DoomedStep(After(steps + more[..n]).value, more[n]);
    }
  }

  lemma DoomedNeverReturns(s: State)
    requires Invariant(s) && Doomed(s)
    ensures !s.main.Returned?
  {
  }

  /** What is left to be done for a normal return after a failure that can be let go. */
  function WayOut(s: State, call: Step): seq<Step>
    requires FailedCall(call)
  {
    var caught := call.ending.Caught?;
    (if caught && !s.completed then [MarkCompleted] else [])
    + (if caught then [TestCompleted] else [])
    + (if s.main.Inside? then [SetStop] else [])
    + (if s.main.Testing? then [] else [JoinReturns])
    + [TestAlive, TestFailed]
  }

  lemma WayOutReturns(steps: seq<Step>, call: Step)
    requires After(steps).Some? && Enabled(After(steps).value, call) && FailedCall(call)
    requires Forgivable(After(steps).value, call)
    ensures ReturnsAfter(steps + [call] + WayOut(After(steps).value, call))
  {
    hide After;
    Always(steps);
    var s := After(steps).value;
    var at, now := steps + [call], Apply(s, call);
    Extend(steps, s, call);
    if call.ending.Caught? {
      if !s.completed { Extend(at, now, MarkCompleted); at, now := at + [MarkCompleted], Apply(now, MarkCompleted); }
      Extend(at, now, TestCompleted);
      at, now := at + [TestCompleted], Apply(now, TestCompleted);
    }
    if s.main.Inside? { Extend(at, now, SetStop); at, now := at + [SetStop], Apply(now, SetStop); }
    if !s.main.Testing? { Extend(at, now, JoinReturns); at, now := at + [JoinReturns], Apply(now, JoinReturns); }
    Extend(at, now, TestAlive);
    at, now := at + [TestAlive], Apply(now, TestAlive);
    Extend(at, now, TestFailed);
    at := at + [TestFailed];
    assert at == steps + [call] + WayOut(s, call);
  }

  /** After any interleaving in which a heartbeat or renewal then fails: some continuation ends in a normal return
      exactly if the failure is forgivable. */
  lemma ForgivenExactly(steps: seq<Step>, call: Step)
    requires After(steps).Some? && Enabled(After(steps).value, call) && FailedCall(call)
    ensures (exists more :: ReturnsAfter(steps + [call] + more)) <==> Forgivable(After(steps).value, call)
  {
    hide After, Enabled, Apply, Invariant, Doomed, Forgivable, WayOut;
    var s := After(steps).value;
    if Forgivable(s, call) {
      WayOutReturns(steps, call);
    } else {
      Always(steps);
      Extend(steps, s, call);
      DoomedNow(s, call);
      forall more ensures !ReturnsAfter(steps + [call] + more) {
        if After(steps + [call] + more).Some? {
          DoomedForGood(steps + [call], more);
          Always(steps + [call] + more);
          DoomedNeverReturns(After(steps + [call] + more).value);
        }
      }
    }
  }

  lemma Initially()
    ensures After([]) == Some(INITIAL)
  {
  }
}
