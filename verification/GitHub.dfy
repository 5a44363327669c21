/** Reading a GitHub workflow run as a job result. What the API answers about a run is part of
    the run; `None` stands for a call that failed. */
module GitHub {
  import opened Basics
  import opened Codec
  import Ci

  datatype Conclusion =
    | ActionRequired
    | Cancelled
    | Failure
    | Neutral
    | Succeeded
    | Skipped
    | Stale
    | StartupFailure
    | TimedOut

  datatype Status = Queued | InProgress | Finished

  datatype Step = Step(name: string, conclusion: Conclusion)

  datatype CheckRunOutput = CheckRunOutput(annotations: nat, title: string)

  datatype Job = Job(name: string, steps: seq<Step>, conclusion: Conclusion, checkRun: Option<CheckRunOutput>)

  /** `total` is the count GitHub reports, which need not be the length of the list. */
  datatype Jobs = Jobs(jobs: seq<Job>, total: nat)

  datatype WorkflowRun = WorkflowRun(name: string, url: string, status: Status, conclusion: Option<Conclusion>,
                                     jobs: Option<Jobs>)

  function StateOf(status: Status, conclusion: Option<Conclusion>): JobState {
    match status
    case Queued => Waiting
    case InProgress => Running
    case Finished =>
      match conclusion
      case Some(Failure) => Completed
      case Some(Neutral) => Completed
      case Some(Succeeded) => Completed
      case _ => Failed
  }

  // ---- a successful run: are there annotations? ----

  /** The outputs that could be read and have annotations. */
  function Annotated(jobs: seq<Job>): seq<CheckRunOutput> {
    if jobs == [] then []
    else
      var rest := Annotated(jobs[1..]);
      match jobs[0].checkRun
      case Some(output) => if output.annotations > 0 then [output] + rest else rest
      case None => rest
  }

  function Total(outputs: seq<CheckRunOutput>): nat {
    if outputs == [] then 0 else outputs[0].annotations + Total(outputs[1..])
  }

  function SuccessVerdict(jobs: Jobs): (TestState, string) {
    var outputs := Annotated(jobs.jobs);
    if |outputs| == 0 then
      (Success, "Successfully ran " + Decimal(jobs.total) + " jobs.")
    else if |outputs| == 1 then
      (Warning, outputs[0].title + " found " + Decimal(outputs[0].annotations) + " issues.")
    else
      (Warning, "Found " + Decimal(Total(outputs)) + " issues from "
                + Decimal(|outputs|) + " of " + Decimal(jobs.total) + " jobs.")
  }

  // ---- a failed run: which job, which step? ----

  function FailedJobs(jobs: seq<Job>): (failed: seq<Job>)
    ensures forall j :: j in failed <==> j in jobs && j.conclusion.Failure?
    ensures failed == [] <==> forall j <- jobs :: !j.conclusion.Failure?
  {
    if jobs == [] then []
    else if jobs[0].conclusion.Failure? then [jobs[0]] + FailedJobs(jobs[1..])
    else FailedJobs(jobs[1..])
  }

  function FailedSteps(steps: seq<Step>): (failed: seq<Step>)
    ensures forall s :: s in failed <==> s in steps && s.conclusion.Failure?
    ensures failed == [] <==> forall s <- steps :: !s.conclusion.Failure?
  {
    if steps == [] then []
    else if steps[0].conclusion.Failure? then [steps[0]] + FailedSteps(steps[1..])
    else FailedSteps(steps[1..])
  }

  /** The verdict for a failed setup step is built and dropped, so it is not here: it is `Fail`. */
  function FailureVerdict(jobs: Jobs): Option<(TestState, string)> {
    var failed := FailedJobs(jobs.jobs);
    if |failed| == 0 then None
    else if |failed| > 1 then
      Some((Fail, Decimal(|failed|) + " of " + Decimal(jobs.total) + " jobs failed."))
    else
      var job := failed[0];
      var steps := FailedSteps(job.steps);
      if |steps| == 1 then Some((Fail, job.name + " failed at step " + steps[0].name + "."))
      else Some((Fail, job.name + " failed " + Decimal(|steps|) + " of " + Decimal(|job.steps|) + " steps."))
  }

  function Verdict(run: WorkflowRun): Option<(TestState, string)> {
    match run.conclusion
    case None => Some((Fail, "Missing conclusion from job"))
    case Some(ActionRequired) => Some((Fail, "Manual intervention required"))
    case Some(Cancelled) => Some((Fail, "Job manually cancelled"))
    case Some(Failure) => if run.jobs.None? then None else FailureVerdict(run.jobs.value)
    case Some(Neutral) => Some((Warning, "Neutral job result, check for details"))
    case Some(Succeeded) => if run.jobs.None? then None else Some(SuccessVerdict(run.jobs.value))
    case Some(Skipped) => Some((Warning, "Job skipped."))
    case Some(Stale) => Some((Warning, "Job 'stale'?  No results."))
    case Some(StartupFailure) => Some((Fail, "Job currently broken."))
    case Some(TimedOut) => Some((Fail, "Job timed out."))
  }

  /** `wfr_to_runner_result`. */
  function Classify(run: WorkflowRun): Option<RunnerResult> {
    match Verdict(run)
    case None => None
    case Some((outcome, text)) =>
      Some(RunnerResult(run.name, StateOf(run.status, run.conclusion), outcome, Some(run.url), Some(text)))
  }

  /** `get_progress`: the results in the order of the runs, or an error if one run gave one. */
  function Progress(runs: seq<WorkflowRun>): Option<seq<RunnerResult>> {
    if runs == [] then Some([])
    else match (Classify(runs[0]), Progress(runs[1..]))
      case (Some(r), Some(rest)) => Some([r] + rest)
      case _ => None
  }

  // ---- what a reported result means ----

  function Annotations(job: Job): nat {
    match job.checkRun case Some(output) => output.annotations case None => 0
  }

  function AllAnnotations(jobs: seq<Job>): nat {
    if jobs == [] then 0 else Annotations(jobs[0]) + AllAnnotations(jobs[1..])
  }

  /** Leaving out the runs without annotations loses none of them. */
  lemma {:induction false} FilterKeepsTotal(jobs: seq<Job>)
    ensures Total(Annotated(jobs)) == AllAnnotations(jobs)
    ensures Annotated(jobs) == [] <==> forall j <- jobs :: Annotations(j) == 0
  {
    if jobs != [] {
      FilterKeepsTotal(jobs[1..]);
      assert jobs == [jobs[0]] + jobs[1..];
      if Annotations(jobs[0]) > 0 {
        assert Annotated(jobs)[1..] == Annotated(jobs[1..]);
      }
    }
  }

  predicate Clean(run: WorkflowRun) {
    run.jobs.Some? && forall j <- run.jobs.value.jobs :: Annotations(j) == 0
  }

  /** The outcome says success exactly when the run succeeded and nothing readable was annotated,
      and warns exactly when it succeeded with annotations or GitHub gave no verdict; so a failed
      run is never a mere warning, whichever step failed. The number of issues reported for
      several check runs is that of all readable ones. */
  lemma SuccessMeansClean(run: WorkflowRun)
    requires Classify(run).Some?
    ensures Classify(run).value.outcome == Success <==> run.conclusion == Some(Succeeded) && Clean(run)
    ensures Classify(run).value.outcome == Warning <==>
            run.conclusion in {Some(Neutral), Some(Skipped), Some(Stale)}
            || (run.conclusion == Some(Succeeded) && !Clean(run))
    ensures Classify(run).value.outcome != Pending
    ensures Classify(run).value.state == Completed && Classify(run).value.outcome == Fail ==>
              run.conclusion == Some(Failure)
    ensures run.conclusion == Some(Succeeded) && |Annotated(run.jobs.value.jobs)| > 1 ==>
            Classify(run).value.description ==
              Some("Found " + Decimal(AllAnnotations(run.jobs.value.jobs)) + " issues from "
                   + Decimal(|Annotated(run.jobs.value.jobs)|) + " of " + Decimal(run.jobs.value.total) + " jobs.")
  {
    if run.conclusion == Some(Succeeded) {
      FilterKeepsTotal(run.jobs.value.jobs);
    }
  }

  /** A result is finished exactly if GitHub calls its run completed, whatever the conclusion; it
      counts as completed exactly if the conclusion is a verdict about the code. */
  lemma FinishedIffCompleted(run: WorkflowRun, r: RunnerResult)
    requires Classify(run) == Some(r)
    ensures Ci.Finished(r) <==> run.status == Finished
    ensures r.state == Completed <==>
              run.status == Finished && run.conclusion in {Some(Failure), Some(Neutral), Some(Succeeded)}
    ensures r.state == Waiting <==> run.status == Queued
    ensures r.state == Running <==> run.status == InProgress
    ensures r.name == run.name && r.url == Some(run.url) && r.description.Some?
  {
  }

  /** An answer whose runs are all completed and readable is all finished, and has each run's name. */
  lemma CompletedRunsAreFinished(runs: seq<WorkflowRun>)
    requires forall run <- runs :: run.status == Finished && Classify(run).Some?
    ensures Progress(runs).Some? && |Progress(runs).value| == |runs|
    ensures forall r <- Progress(runs).value :: Ci.Finished(r)
    ensures forall i :: 0 <= i < |runs| ==> Progress(runs).value[i].name == runs[i].name
  {
    ProgressInOrder(runs);
    var answer := Progress(runs).value;
    forall i | 0 <= i < |runs| ensures Ci.Finished(answer[i]) && answer[i].name == runs[i].name {
      FinishedIffCompleted(runs[i], answer[i]);
    }
  }

  /** The failed jobs a description counts are all of the failed jobs, as often as they occur. */
  lemma {:induction false} FailuresKept(jobs: seq<Job>, j: Job)
    ensures multiset(FailedJobs(jobs))[j] == if j.conclusion.Failure? then multiset(jobs)[j] else 0
  {
    if jobs != [] {
      FailuresKept(jobs[1..], j);
      assert jobs == [jobs[0]] + jobs[1..];
    }
  }

  /** The issues in a description are those of all readable check runs also if only one has any. */
  lemma OneAnnotated(jobs: seq<Job>)
    requires |Annotated(jobs)| == 1
    ensures Annotated(jobs)[0].annotations == AllAnnotations(jobs)
  {
    FilterKeepsTotal(jobs);
    assert Annotated(jobs)[1..] == [];
  }

  /** The counts in the descriptions of a successful run. */
  lemma AnnotationsInTexts(run: WorkflowRun)
    requires run.conclusion == Some(Succeeded) && run.jobs.Some?
    ensures Classify(run).Some?
    ensures var jobs, text := run.jobs.value.jobs, Classify(run).value.description;
            && (Clean(run) ==> text == Some("Successfully ran " + Decimal(run.jobs.value.total) + " jobs."))
            && (|Annotated(jobs)| == 1 ==>
                  text == Some(Annotated(jobs)[0].title + " found " + Decimal(AllAnnotations(jobs)) + " issues."))
  {
    FilterKeepsTotal(run.jobs.value.jobs);
    if |Annotated(run.jobs.value.jobs)| == 1 {
      OneAnnotated(run.jobs.value.jobs);
    }
    hide Annotated, Decimal, AllAnnotations, StateOf;
  }

  /** The counts in the descriptions of a failed run. */
  lemma FailuresInTexts(run: WorkflowRun)
    requires run.conclusion == Some(Failure) && run.jobs.Some? && FailedJobs(run.jobs.value.jobs) != []
    ensures Classify(run).Some?
    ensures var failed, text := FailedJobs(run.jobs.value.jobs), Classify(run).value.description;
            && (|failed| > 1 ==>
                  text == Some(Decimal(|failed|) + " of " + Decimal(run.jobs.value.total) + " jobs failed."))
            && (|failed| == 1 && |FailedSteps(failed[0].steps)| != 1 ==>
                  text == Some(failed[0].name + " failed " + Decimal(|FailedSteps(failed[0].steps)|)
                               + " of " + Decimal(|failed[0].steps|) + " steps."))
  {
    hide FailedJobs, FailedSteps, Decimal, StateOf;
  }

  /** If one job failed, at one step, both are named, wherever they are in their lists. */
  lemma OneFailureNamed(run: WorkflowRun, before: seq<Job>, job: Job, after: seq<Job>, first: seq<Step>, step: Step,
                        rest: seq<Step>)
    requires run.conclusion == Some(Failure) && run.jobs.Some? && run.jobs.value.jobs == before + [job] + after
    requires job.steps == first + [step] + rest && job.conclusion.Failure? && step.conclusion.Failure?
    requires (forall j <- before + after :: !j.conclusion.Failure?) &&
             forall s <- first + rest :: !s.conclusion.Failure?
    ensures Classify(run).Some? && Classify(run).value.outcome == Fail
    ensures Classify(run).value.description == Some(job.name + " failed at step " + step.name + ".")
  {
    hide Classify, FailedJobs, FailedSteps;
    OneFailedJob(before, job, after);
    OneFailedStep(first, step, rest);
    ClassifiedByOne(run, job, step);
  }

  lemma ClassifiedByOne(run: WorkflowRun, job: Job, step: Step)
    requires run.conclusion == Some(Failure) && run.jobs.Some?
    requires FailedJobs(run.jobs.value.jobs) == [job] && FailedSteps(job.steps) == [step]
    ensures Classify(run).Some? && Classify(run).value.outcome == Fail
    ensures Classify(run).value.description == Some(job.name + " failed at step " + step.name + ".")
  {
    hide FailedJobs, FailedSteps, Decimal, StateOf;
  }

  lemma {:induction false} OneFailedJob(before: seq<Job>, job: Job, after: seq<Job>)
    requires job.conclusion.Failure? && forall j <- before + after :: !j.conclusion.Failure?
    ensures FailedJobs(before + [job] + after) == [job]
    decreases |before|
  {
    if before == [] {
      assert before + [job] + after == [job] + after && before + after == after;
    } else {
      assert (before + [job] + after)[1..] == before[1..] + [job] + after;
      assert before[0] in before + after && forall j <- before[1..] + after :: j in before + after;
      OneFailedJob(before[1..], job, after);
    }
  }

  lemma {:induction false} OneFailedStep(before: seq<Step>, step: Step, after: seq<Step>)
    requires step.conclusion.Failure? && forall s <- before + after :: !s.conclusion.Failure?
    ensures FailedSteps(before + [step] + after) == [step]
    decreases |before|
  {
    if before == [] {
      assert before + [step] + after == [step] + after && before + after == after;
    } else {
      assert (before + [step] + after)[1..] == before[1..] + [step] + after;
      assert before[0] in before + after && forall s <- before[1..] + after :: s in before + after;
      OneFailedStep(before[1..], step, after);
    }
  }

  /** Reading a run fails exactly when its jobs are needed and cannot be fetched, or a failed run
      has no failed job. */
  lemma ReadableIff(run: WorkflowRun)
    ensures Classify(run).None? <==>
            || (run.conclusion == Some(Succeeded) && run.jobs.None?)
            || (run.conclusion == Some(Failure)
                && (run.jobs.None? || forall j <- run.jobs.value.jobs :: !j.conclusion.Failure?))
  {
    if run.conclusion == Some(Failure) && run.jobs.Some? {
      var failed := FailedJobs(run.jobs.value.jobs);
      if failed != [] {
        assert failed[0] in failed;
      }
    }
  }

  lemma {:induction false} ProgressInOrder(runs: seq<WorkflowRun>)
    ensures Progress(runs).None? <==> exists run <- runs :: Classify(run).None?
    ensures Progress(runs).Some? ==>
            |Progress(runs).value| == |runs| &&
            forall i :: 0 <= i < |runs| ==> Classify(runs[i]) == Some(Progress(runs).value[i])
  {
    if runs != [] {
      ProgressInOrder(runs[1..]);
      assert runs == [runs[0]] + runs[1..];
      if Progress(runs).Some? {
        assert Progress(runs).value[1..] == Progress(runs[1..]).value;
        assert forall i :: 1 <= i < |runs| ==> runs[i] == runs[1..][i - 1];
      }
    }
  }

  /** A finished job result comes from a run GitHub calls completed. */
  lemma FinishedComesFromCompleted(runs: seq<WorkflowRun>, r: RunnerResult)
    requires Progress(runs).Some? && r in Ci.FinishedOf(Progress(runs).value)
    ensures exists run :: run in runs && Classify(run) == Some(r) && run.status == Finished
  {
    ProgressInOrder(runs);
    var answer := Progress(runs).value;
    var i :| 0 <= i < |answer| && answer[i] == r;
    assert runs[i] in runs;
  }
}
