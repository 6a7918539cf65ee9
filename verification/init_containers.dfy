/** The two injected init-containers as one state machine: what their scripts do between two answers of the handlers,
    with the restarts that the kubelet makes after a failure. The runs are free of signals. */
module InitContainers {
  import opened Text

  /** Where the scripts stand. The second container starts when the first has exited with success, the main containers
      when the second has. */
  datatype Pc =
    | Query | RecordNone | Submit | RecordId | CheckId | AskState | FirstFailed
    | ReadFile | FetchEnv | CancelJob | SecondFailed
    | Main

  /** `jobid` is the variable of the running script, `file` the shared file with the job id. */
  datatype State = State(pc: Pc, jobid: string, file: string)

  const INITIAL := State(Query, "", "")

  /** Answers of the handlers, outcomes of writing the shared file (a failed write leaves anything), restarts, and steps
      that depend on nothing else. */
  datatype Step =
    | IsInjectable(ok: bool)
    | Sbatch(out: string)
    | JobState(state: string)
    | Env(ok: bool)
    | SCancel(ok: bool)
    | Written
    | WriteFailed(left: string)
    | Tick
    | Restart
    | SandboxLost

  /** `egrep -q '^[0-9]+$'`: some line is a decimal. */
  predicate Numeric(s: string) { exists line :: line in Split(s, "\n") && IsDecimal(line) }

  predicate Enabled(s: State, step: Step) {
    match step
    case IsInjectable(_) => s.pc == Query
    case Sbatch(_) => s.pc == Submit
    case JobState(_) => s.pc == AskState
    case Env(_) => s.pc == FetchEnv
    case SCancel(_) => s.pc == CancelJob
    case Written => s.pc == RecordNone || s.pc == RecordId
    case WriteFailed(_) => s.pc == RecordNone || s.pc == RecordId
    case Tick => s.pc == CheckId || s.pc == ReadFile
    case Restart => s.pc == FirstFailed || s.pc == SecondFailed
    case SandboxLost => true
  }

  function Apply(s: State, step: Step): State
    requires Enabled(s, step)
  {
    match step
    case IsInjectable(ok) => s.(pc := if ok then Submit else RecordNone)
    case Sbatch(out) => s.(jobid := out, pc := RecordId)
    case JobState(state) =>
      s.(pc := if state == "RUNNING" then ReadFile else if state == "CANCELLED" then FirstFailed else CheckId)
    case Env(ok) => s.(pc := if ok then Main else CancelJob)
    case SCancel(ok) => s.(pc := if ok then Main else SecondFailed)
    case Written =>
      // after `none` the first script exits
      if s.pc == RecordNone then s.(file := "none", pc := ReadFile) else s.(file := s.jobid, pc := CheckId)
    case WriteFailed(left) =>
      // the chain of commands breaks off before its exit
      if s.pc == RecordNone then s.(file := left, pc := Submit) else s.(file := left, pc := CheckId)
    case Tick =>
      if s.pc == CheckId then s.(pc := if Numeric(s.jobid) then AskState else FirstFailed)
      else
        s.(jobid := s.file,
           pc := if s.file == "" || s.file == "error" then SecondFailed else if s.file == "none" then Main else FetchEnv)
    case Restart => s.(pc := if s.pc == FirstFailed then Query else ReadFile)
    case SandboxLost => s.(pc := Query)
  }

  ghost predicate IsRun(states: seq<State>, steps: seq<Step>) {
    && |states| == |steps| + 1
    && states[0] == INITIAL
    && forall i :: 0 <= i < |steps| ==> Enabled(states[i], steps[i]) && states[i + 1] == Apply(states[i], steps[i])
  }

  // ----- Main containers start for a reason ------------------------------------------------------------

  /** The sandbox of the pod is kept from step `i` to step `n`. */
  ghost predicate OneSandbox(steps: seq<Step>, i: nat, n: nat)
    requires n <= |steps|
  {
    forall k :: i <= k < n ==> steps[k] != SandboxLost
  }

  /** Within the first `n` steps, and in the present sandbox, the injectability query failed and `none` was recorded
      next. */
  ghost predicate QueryFailed(states: seq<State>, steps: seq<Step>, n: nat)
    requires IsRun(states, steps) && n <= |steps|
  {
    exists i :: 0 <= i && i + 1 < n && steps[i] == IsInjectable(false) && steps[i + 1] == Written
                && states[i + 2].file == "none" && OneSandbox(steps, i, n)
  }

  /** Within the first `n` steps, and in the present sandbox, sbatch answered with `id`. */
  ghost predicate Obtained(steps: seq<Step>, n: nat, id: string)
    requires n <= |steps|
  {
    exists i :: 0 <= i < n && steps[i] == Sbatch(id) && OneSandbox(steps, i, n)
  }

  /** Within the first `n` steps, and in the present sandbox, a numeric job id was obtained and after that the state of
      that job was seen as RUNNING. */
  ghost predicate SeenRunning(states: seq<State>, steps: seq<Step>, n: nat)
    requires IsRun(states, steps) && n <= |steps|
  {
    exists j :: 0 <= j < n && steps[j] == JobState("RUNNING") && Numeric(states[j].jobid)
                && Obtained(steps, j, states[j].jobid) && OneSandbox(steps, j, n)
  }

  /** What holds after `n` steps, by where the scripts stand. */
  ghost predicate Justified(states: seq<State>, steps: seq<Step>, n: nat)
    requires IsRun(states, steps) && n <= |steps|
  {
    match states[n].pc
    case Query => true
    case Submit => true
    case FirstFailed => true
    case RecordNone => n > 0 && steps[n - 1] == IsInjectable(false)
    case RecordId => Obtained(steps, n, states[n].jobid)
    case CheckId => Obtained(steps, n, states[n].jobid)
    case AskState => Obtained(steps, n, states[n].jobid) && Numeric(states[n].jobid)
    case _ => QueryFailed(states, steps, n) || SeenRunning(states, steps, n)
  }

  lemma HistoryGrows(states: seq<State>, steps: seq<Step>, n: nat)
    requires IsRun(states, steps) && n < |steps| && steps[n] != SandboxLost
    ensures QueryFailed(states, steps, n) ==> QueryFailed(states, steps, n + 1)
    ensures SeenRunning(states, steps, n) ==> SeenRunning(states, steps, n + 1)
    ensures forall id :: Obtained(steps, n, id) ==> Obtained(steps, n + 1, id)
  {
  }

  /** A step that adds to the history. */
  lemma StepAdds(states: seq<State>, steps: seq<Step>, n: nat)
    requires IsRun(states, steps) && n < |steps|
    ensures steps[n].Sbatch? ==> Obtained(steps, n + 1, steps[n].out)
    ensures steps[n] == JobState("RUNNING") && Numeric(states[n].jobid) && Obtained(steps, n, states[n].jobid) ==>
      SeenRunning(states, steps, n + 1)
    ensures n > 0 && steps[n - 1] == IsInjectable(false) && steps[n] == Written && states[n + 1].file == "none" ==>
      QueryFailed(states, steps, n + 1)
  {
  }

  predicate InSecond(pc: Pc) { pc in {ReadFile, FetchEnv, CancelJob, SecondFailed} }

  lemma FirstScriptIsJustified(states: seq<State>, steps: seq<Step>, n: nat)
    requires IsRun(states, steps) && n < |steps| && Justified(states, steps, n)
    requires !InSecond(states[n].pc) && states[n].pc != Main
    ensures Justified(states, steps, n + 1)
  {
    assert states[n + 1] == Apply(states[n], steps[n]);
    StepAdds(states, steps, n);
    if steps[n] != SandboxLost { HistoryGrows(states, steps, n); }
  }

  lemma SecondScriptIsJustified(states: seq<State>, steps: seq<Step>, n: nat)
    requires IsRun(states, steps) && n < |steps| && steps[n] != SandboxLost
    requires InSecond(states[n].pc) || states[n].pc == Main
    requires QueryFailed(states, steps, n) || SeenRunning(states, steps, n)
    ensures Justified(states, steps, n + 1)
  {
  }

  lemma StepIsJustified(states: seq<State>, steps: seq<Step>, n: nat)
    requires IsRun(states, steps) && n < |steps| && Justified(states, steps, n)
    ensures Justified(states, steps, n + 1)
  {
    if !InSecond(states[n].pc) && states[n].pc != Main {
      FirstScriptIsJustified(states, steps, n);
    } else if steps[n] != SandboxLost {
      SecondScriptIsJustified(states, steps, n);
    } else {
      assert states[n + 1] == Apply(states[n], steps[n]);
    }
  }

  lemma {:induction false} EveryStateIsJustified(states: seq<State>, steps: seq<Step>, n: nat)
    requires IsRun(states, steps) && n <= |steps|
    ensures Justified(states, steps, n)
  {
    if n > 0 {
      EveryStateIsJustified(states, steps, n - 1);
      StepIsJustified(states, steps, n - 1);
    }
  }

  /** In every run, whatever the handlers answer, whichever writes fail and however often containers are restarted: the
      main containers start only after, in the present sandbox, the injectability query failed and `none` was recorded,
      or a numeric job id was obtained and its job was seen RUNNING. */
  lemma MainStartsForAReason(states: seq<State>, steps: seq<Step>, n: nat)
    requires IsRun(states, steps) && n <= |steps| && states[n].pc == Main
    ensures QueryFailed(states, steps, n) || SeenRunning(states, steps, n)
  {
    EveryStateIsJustified(states, steps, n);
  }

  // ----- What the second container reads -----------------------------------------------------------------

  /** If writes succeed, the shared file is the job id while the first script waits, and `none` or numeric once it is
      done. */
  predicate FileAgrees(s: State) {
    && (s.pc == CheckId || s.pc == AskState ==> s.file == s.jobid)
    && (s.pc == AskState ==> Numeric(s.jobid))
    && (InSecond(s.pc) || s.pc == Main ==> s.file == "none" || Numeric(s.file))
  }

  lemma WordsAreNotNumeric()
    ensures !Numeric("") && !Numeric("error") && !Numeric("none")
  {
    SplitNone("", "\n");
    SplitNone("error", "\n");
    SplitNone("none", "\n");
    assert "error"[0] == 'e' && "none"[0] == 'n';
  }

  lemma {:induction false} FileAgreesAlong(states: seq<State>, steps: seq<Step>, n: nat)
    requires IsRun(states, steps) && n <= |steps| && forall i :: 0 <= i < n ==> !steps[i].WriteFailed?
    ensures FileAgrees(states[n])
  {
    if n > 0 {
      FileAgreesAlong(states, steps, n - 1);
      assert states[n] == Apply(states[n - 1], steps[n - 1]);
    }
  }

  lemma FailsByCancel(s: State, step: Step)
    requires Enabled(s, step) && FileAgrees(s) && s.pc != SecondFailed && Apply(s, step).pc == SecondFailed
    ensures s.pc == CancelJob && step == SCancel(false)
  {
    WordsAreNotNumeric();
  }

  lemma CancelsByRefusal(s: State, step: Step)
    requires Enabled(s, step) && Apply(s, step).pc == CancelJob
    ensures step == Env(false)
  {
  }

  /** In a run without failed writes the second container finds `none` or a numeric job id: it fails only when both the
      environment and the cancellation were refused. */
  lemma SecondFailsOnlyOnRefusals(states: seq<State>, steps: seq<Step>, n: nat)
    requires IsRun(states, steps) && n < |steps| && forall i :: 0 <= i <= n ==> !steps[i].WriteFailed?
    requires states[n].pc != SecondFailed && states[n + 1].pc == SecondFailed
    ensures n > 0 && steps[n] == SCancel(false) && steps[n - 1] == Env(false)
  {
    FileAgreesAlong(states, steps, n);
    FailsByCancel(states[n], steps[n]);
    assert n > 0;
    CancelsByRefusal(states[n - 1], steps[n - 1]);
  }

  /** Why the main containers start, in every run: beside a cancelled job exactly if the environment was refused one
      step before, and otherwise because the environment was answered or `none` was found. */
  lemma WhyMainStarts(states: seq<State>, steps: seq<Step>, n: nat)
    requires IsRun(states, steps) && 0 < n <= |steps| && states[n].pc == Main && states[n - 1].pc != Main
    ensures steps[n - 1] == SCancel(true) <==> n >= 2 && steps[n - 2] == Env(false)
    ensures steps[n - 1] != SCancel(true) ==>
      steps[n - 1] == Env(true) || (steps[n - 1] == Tick && states[n - 1].file == "none")
  {
    assert states[n] == Apply(states[n - 1], steps[n - 1]);
    if n >= 2 {
      assert states[n - 1] == Apply(states[n - 2], steps[n - 2]);
    }
  }

  /** When the first container fails: its job was cancelled, or sbatch answered in the present sandbox with what is not
      numeric. In any other state of the job it goes on polling, until it sees the job RUNNING. */
  lemma WhyFirstFails(states: seq<State>, steps: seq<Step>, n: nat)
    requires IsRun(states, steps) && n < |steps|
    ensures states[n + 1].pc == FirstFailed <==>
      steps[n] == JobState("CANCELLED") || (steps[n] == Tick && states[n].pc == CheckId && !Numeric(states[n].jobid))
    ensures states[n].pc == CheckId ==> Obtained(steps, n, states[n].jobid)
    ensures steps[n].JobState? && steps[n].state != "CANCELLED" && steps[n].state != "RUNNING" ==> states[n + 1].pc == CheckId
  {
    EveryStateIsJustified(states, steps, n);
    assert states[n + 1] == Apply(states[n], steps[n]);
  }

  /** When the first container succeeds: its job is seen RUNNING, or `none` was written. */
  lemma WhyFirstSucceeds(states: seq<State>, steps: seq<Step>, n: nat)
    requires IsRun(states, steps) && n < |steps| && !InSecond(states[n].pc)
    ensures InSecond(states[n + 1].pc) <==> steps[n] == JobState("RUNNING") || (steps[n] == Written && states[n].pc == RecordNone)
    ensures InSecond(states[n + 1].pc) ==> states[n + 1].pc == ReadFile
  {
    assert states[n + 1] == Apply(states[n], steps[n]);
  }

  /** When the second container fails: the cancellation is refused, or it reads that there is no job id. */
  lemma WhySecondFails(states: seq<State>, steps: seq<Step>, n: nat)
    requires IsRun(states, steps) && n < |steps|
    ensures states[n + 1].pc == SecondFailed <==>
      steps[n] == SCancel(false) || (steps[n] == Tick && states[n].pc == ReadFile && states[n].file in ["", "error"])
  {
    assert states[n + 1] == Apply(states[n], steps[n]);
  }

  /** What the shared file holds changes only by a write: `none`, what sbatch answered in the present sandbox, or what a
      failed write has left. */
  lemma WhatIsRecorded(states: seq<State>, steps: seq<Step>, n: nat)
    requires IsRun(states, steps) && n < |steps|
    ensures !steps[n].Written? && !steps[n].WriteFailed? ==> states[n + 1].file == states[n].file
    ensures steps[n].WriteFailed? ==> states[n + 1].file == steps[n].left
    ensures steps[n].Written? ==>
      (n > 0 && steps[n - 1] == IsInjectable(false) && states[n + 1].file == "none")
      || Obtained(steps, n, states[n + 1].file)
  {
    EveryStateIsJustified(states, steps, n);
    assert states[n + 1] == Apply(states[n], steps[n]);
  }

  /** When a job is submitted: right after Slurm was found to have the node, or after the refusal could not be
      recorded. */
  lemma WhySubmitted(states: seq<State>, steps: seq<Step>, n: nat)
    requires IsRun(states, steps) && n < |steps| && steps[n].Sbatch?
    ensures n > 0 && (steps[n - 1] == IsInjectable(true) ||
                      (n > 1 && steps[n - 1].WriteFailed? && steps[n - 2] == IsInjectable(false)))
  {
    assert n > 0 && states[n] == Apply(states[n - 1], steps[n - 1]);
    if n > 1 { assert states[n - 1] == Apply(states[n - 2], steps[n - 2]); }
  }

  lemma RunGoesOn(states: seq<State>, steps: seq<Step>, step: Step)
    requires IsRun(states, steps) && Enabled(states[|steps|], step)
    ensures IsRun(states + [Apply(states[|steps|], step)], steps + [step])
  {
  }

  /** The first script has submitted and recorded a job id. */
  lemma ReachWaiting(id: string) returns (states: seq<State>, steps: seq<Step>)
    ensures IsRun(states, steps) && |steps| == 3 && states[|steps|] == State(CheckId, id, id) && Sbatch(id) in steps
  {
    var s1, s2 := INITIAL.(pc := Submit), State(RecordId, id, "");
    states, steps := [INITIAL, s1, s2, State(CheckId, id, id)], [IsInjectable(true), Sbatch(id), Written];
    assert steps[1] == Sbatch(id);
  }

  /** Its job was seen RUNNING, and the second script has read the job id. */
  lemma ReachFetching(id: string) returns (states: seq<State>, steps: seq<Step>)
    requires IsDecimal(id)
    ensures IsRun(states, steps) && |steps| == 6 && states[|steps|] == State(FetchEnv, id, id) && Sbatch(id) in steps
  {
    DecimalIsNumeric(id);
    states, steps := ReachWaiting(id);
    RunGoesOn(states, steps, Tick);
    states, steps := states + [State(AskState, id, id)], steps + [Tick];
    RunGoesOn(states, steps, JobState("RUNNING"));
    states, steps := states + [State(ReadFile, id, id)], steps + [JobState("RUNNING")];
    RunGoesOn(states, steps, Tick);
    states, steps := states + [State(FetchEnv, id, id)], steps + [Tick];
  }

  /** RUNNING was seen at an earlier step, no more: for every job id there is a run in which the environment is refused,
      the cancellation is not, and the main containers start beside the cancelled job. */
  lemma MainAfterCancel(id: string) returns (states: seq<State>, steps: seq<Step>)
    requires IsDecimal(id)
    ensures IsRun(states, steps) && |steps| > 1 && Sbatch(id) in steps
    ensures states[|steps|].pc == Main && states[|steps| - 1].pc != Main && states[|steps| - 1].jobid == id
    ensures steps[|steps| - 2] == Env(false) && steps[|steps| - 1] == SCancel(true)
  {
    states, steps := ReachFetching(id);
    RunGoesOn(states, steps, Env(false));
    states, steps := states + [State(CancelJob, id, id)], steps + [Env(false)];
    RunGoesOn(states, steps, SCancel(true));
    states, steps := states + [State(Main, id, id)], steps + [SCancel(true)];
  }

  /** A job is submitted twice, without a refused request or a failed write, when the first job is cancelled and the
      kubelet restarts the first container: for all job ids there is such a run. */
  lemma SubmitsAgain(id: string, id': string) returns (states: seq<State>, steps: seq<Step>)
    requires IsDecimal(id)
    ensures IsRun(states, steps) && |steps| == 8 && steps[1] == Sbatch(id) && steps[7] == Sbatch(id')
    ensures steps[4] == JobState("CANCELLED") && states[8] == State(RecordId, id', id)
    ensures forall step :: step in steps ==>
      !step.WriteFailed? && step != SandboxLost && step !in {IsInjectable(false), Env(false), SCancel(false)}
  {
    DecimalIsNumeric(id);
    var s1, s2, s3, s4 := INITIAL.(pc := Submit), State(RecordId, id, ""), State(CheckId, id, id), State(AskState, id, id);
    var s5, s6, s7, s8 :=
      State(FirstFailed, id, id), State(Query, id, id), State(Submit, id, id), State(RecordId, id', id);
    states := [INITIAL, s1, s2, s3, s4, s5, s6, s7, s8];
    steps := [IsInjectable(true), Sbatch(id), Written, Tick, JobState("CANCELLED"), Restart, IsInjectable(true), Sbatch(id')];
  }

  /** A restarted second container reads the job id again, and the main containers start when it gets the environment. A
      lost sandbox begins with a new query. */
  lemma RetriesWithTheSameJob(id: string) returns (states: seq<State>, steps: seq<Step>)
    requires IsDecimal(id)
    ensures IsRun(states, steps) && |steps| == 12 && |states| == 13
    ensures steps[6] == Env(false) && steps[7] == SCancel(false) && steps[8] == Restart && steps[10] == Env(true)
    ensures states[11] == State(Main, id, id) && steps[11] == SandboxLost && states[12] == State(Query, id, id)
  {
    states, steps := ReachFetching(id);
    RunGoesOn(states, steps, Env(false));
    states, steps := states + [State(CancelJob, id, id)], steps + [Env(false)];
    RunGoesOn(states, steps, SCancel(false));
    states, steps := states + [State(SecondFailed, id, id)], steps + [SCancel(false)];
    RunGoesOn(states, steps, Restart);
    states, steps := states + [State(ReadFile, id, id)], steps + [Restart];
    DecimalIsNumeric(id);
    RunGoesOn(states, steps, Tick);
    states, steps := states + [State(FetchEnv, id, id)], steps + [Tick];
    RunGoesOn(states, steps, Env(true));
    states, steps := states + [State(Main, id, id)], steps + [Env(true)];
    RunGoesOn(states, steps, SandboxLost);
    states, steps := states + [State(Query, id, id)], steps + [SandboxLost];
  }

  lemma DecimalIsNumeric(id: string)
    requires IsDecimal(id)
    ensures Numeric(id) && id != "" && id != "error" && id != "none"
  {
    assert IsDigit(id[0]) && "error"[0] == 'e' && "none"[0] == 'n';
    forall i | 0 <= i < |id| ensures id[i] != '\n' {
      assert IsDigit(id[i]);
    }
    SplitNone(id, "\n");
    assert id in Split(id, "\n");
  }
}
