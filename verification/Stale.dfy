/** The wait of a git task for its own worker tree: when it ends, what makes it endless, and that
    this can happen while the process lives. */
module Stale {
  import opened Basics
  import opened Protocol
  import opened Reach
  import Intake
  import Drain

  /** The worker tree holds a series that its thread is not working on. */
  ghost predicate StaleEntry(f: Intake.Front, w: nat, id: Id) {
    (w, id) in f.onWorker && !Drain.HasThread(f, w, id)
  }

  /** A task waits at worker `w`. */
  predicate WaitsAt(f: Intake.Front, w: nat) {
    w < |f.git| && f.git[w].Queueing?
  }

  /** Worker `w` has left the wait and is about to take its series, or took it. */
  predicate PastTheWait(f: Intake.Front, w: nat) {
    w < |f.git| && (f.git[w].Clear? || f.git[w].Works())
  }

  // ---- how an entry gets stale ----

  /** The task of a second series waits at worker `w`, behind the entry of the first. */
  ghost predicate WaitsBehind(f: Intake.Front, w: nat, id: Id, next: Id) {
    StaleEntry(f, w, id) && WaitsAt(f, w) && f.git[w].id == next
  }

  /** A crash inside `do_work`, and a restart without further crashes. */
  lemma StaleAfterCrash(c: Config, id: Id, next: Id) returns (before: seq<Action>, run: seq<Action>)
    requires c.workers > 0 && c.patches(id) != [] && c.patches(next) != [] && next != id
    ensures Legal(c, Init(c), before)
    ensures var f := Run(c, Init(c), before).front; |f.git| > 0 && f.git[0] == Intake.Prep(id)
    ensures Continues(before + [Crash], run)
    ensures Legal(c, Init(c), run) && WaitsBehind(Run(c, Init(c), run).front, 0, id, next)
  {
    hide Legal, Run;
    var f;
    before, f := ReachWork(c, id);
    OneMore(c, before, Crash);
    run, f := BringToPool(c, before + [Crash], next);
    run, f := Walk(c, run, Intake.GitStart(0, next));
  }

  /** Without a crash: the task fails, and then the move to "git failures" is itself an error. */
  lemma StaleAfterGivingUp(c: Config, id: Id, next: Id) returns (run: seq<Action>)
    requires c.workers > 0 && c.patches(id) != [] && c.patches(next) != [] && next != id
    ensures Legal(c, Init(c), run) && Crash !in run
    ensures WaitsBehind(Run(c, Init(c), run).front, 0, id, next)
  {
    hide Legal, Run;
    var f;
    run, f := ReachWork(c, id);
    run, f := Walk(c, run, Intake.GitFail(0));
    run, f := Walk(c, run, Intake.GitBoned(0));
    run, f := BringToPool(c, run, next);
    run, f := Walk(c, run, Intake.GitStart(0, next));
  }

  // ---- it stays ----

  lemma StepKeepsStale(c: Config, s: State, a: Action, w: nat, id: Id)
    requires Intake.Inv(c, s.front) && Enabled(c, s, a) && StaleEntry(s.front, w, id)
    ensures StaleEntry(Apply(c, s, a).front, w, id)
  {
    hide Intake.Inv, Intake.Apply, Intake.Enabled;
    match a
    case Front(b) =>
      if b.GitBoned? {
        BonedKeepsStale(c, s.front, b, w, id);
      } else {
        Drain.FrontStep(c, s.front, b, w, id);
      }
    case _ =>
  }

  lemma BonedKeepsStale(c: Config, f: Intake.Front, b: Intake.Action, w: nat, id: Id)
    requires Intake.Enabled(c, f, b) && b.GitBoned? && StaleEntry(f, w, id)
    ensures StaleEntry(Intake.Apply(c, f, b), w, id)
  {
  }

  lemma {:induction false} RunKeepsStale(c: Config, s: State, run: seq<Action>, w: nat, id: Id)
    requires Intake.Inv(c, s.front) && Legal(c, s, run) && StaleEntry(s.front, w, id)
    ensures StaleEntry(Run(c, s, run).front, w, id)
    decreases |run|
  {
    hide Intake.Inv, StaleEntry, Enabled, Apply;
    if run != [] {
      StepKeepsStale(c, s, run[0], w, id);
      StepKeepsFront(c, s, run[0]);
      RunKeepsStale(c, Apply(c, s, run[0]), run[1..], w, id);
    }
  }

  lemma StaleBlocks(c: Config, f: Intake.Front, w: nat, id: Id)
    requires Intake.Inv(c, f) && StaleEntry(f, w, id)
    ensures !Intake.Enabled(c, f, Intake.GitClear(w)) && !PastTheWait(f, w)
  {
    hide Intake.Inv;
    if w < |f.git| {
      Intake.ThreadFacts(c, f, w);
    }
  }

  /** A stale entry is there for good, crashes included, and no task on that worker ever gets past
      the wait again. */
  lemma StaleForever(c: Config, run: seq<Action>, more: seq<Action>, w: nat, id: Id)
    requires Sighted(c) && Legal(c, Init(c), run) && Legal(c, Run(c, Init(c), run), more)
    requires StaleEntry(Run(c, Init(c), run).front, w, id)
    ensures var s := Run(c, Run(c, Init(c), run), more);
            StaleEntry(s.front, w, id) && !Enabled(c, s, Front(Intake.GitClear(w))) && !PastTheWait(s.front, w)
  {
    hide Legal, Run, Intake.Inv, StaleEntry, PastTheWait, Intake.Enabled;
    ReachedFront(c, run);
    var s := Run(c, Init(c), run);
    RunKeepsStale(c, s, more, w, id);
    RunKeepsFront(c, s, more);
    StaleBlocks(c, Run(c, s, more).front, w, id);
  }

  // ---- exactly when the wait ends ----

  ghost predicate CanGetPast(c: Config, s: State, w: nat) {
    exists more :: Legal(c, s, more) && PastTheWait(Run(c, s, more).front, w)
  }

  /** A waiting task can leave the wait, now or ever, if and only if its tree has no stale entry. */
  lemma WaitEndsIffNothingStale(c: Config, run: seq<Action>, w: nat)
    requires Sighted(c) && Legal(c, Init(c), run) && WaitsAt(Run(c, Init(c), run).front, w)
    ensures var s := Run(c, Init(c), run);
            && (Enabled(c, s, Front(Intake.GitClear(w))) <==> forall id :: !StaleEntry(s.front, w, id))
            && (CanGetPast(c, s, w) <==> forall id :: !StaleEntry(s.front, w, id))
  {
    var s := Run(c, Init(c), run);
    if id: Id :| StaleEntry(s.front, w, id) {
      hide Legal, Run, StaleEntry, PastTheWait, Enabled;
      forall more | Legal(c, s, more)
        ensures !PastTheWait(Run(c, s, more).front, w)
      {
        StaleForever(c, run, more, w, id);
      }
      assert !Enabled(c, s, Front(Intake.GitClear(w))) by { StaleNow(c, run, w, id); }
    } else {
      ClearNow(c, s, w);
    }
  }

  lemma StaleNow(c: Config, run: seq<Action>, w: nat, id: Id)
    requires Legal(c, Init(c), run) && StaleEntry(Run(c, Init(c), run).front, w, id)
    ensures !Enabled(c, Run(c, Init(c), run), Front(Intake.GitClear(w)))
  {
  }

  lemma ClearNow(c: Config, s: State, w: nat)
    requires WaitsAt(s.front, w) && forall id :: !StaleEntry(s.front, w, id)
    ensures Enabled(c, s, Front(Intake.GitClear(w))) && CanGetPast(c, s, w)
  {
    assert forall id :: (w, id) in s.front.onWorker ==> StaleEntry(s.front, w, id);
    var a := Front(Intake.GitClear(w));
    assert Enabled(c, s, a);
    assert Legal(c, Apply(c, s, a), []) && [a][1..] == [];
    assert Legal(c, s, [a]) && Run(c, s, [a]) == Apply(c, s, a);
  }

  /** While neither the process nor a task gives up, no task ever has to wait. */
  lemma CalmTasksNeverWait(c: Config, run: seq<Action>, w: nat)
    requires Sighted(c) && Legal(c, Init(c), run) && (forall a <- run :: Drain.Calm(a))
    requires WaitsAt(Run(c, Init(c), run).front, w)
    ensures Enabled(c, Run(c, Init(c), run), Front(Intake.GitClear(w)))
  {
    Intake.InitInv(c);
    CalmRunKeepsGitSide(c, Init(c), run);
    assert forall id :: !StaleEntry(Run(c, Init(c), run).front, w, id);
    ClearNow(c, Run(c, Init(c), run), w);
  }

  lemma {:induction false} CalmRunKeepsGitSide(c: Config, s: State, run: seq<Action>)
    requires Intake.Inv(c, s.front) && Drain.GitSideTended(s.front)
    requires Legal(c, s, run) && forall a <- run :: Drain.Calm(a)
    ensures Drain.GitSideTended(Run(c, s, run).front)
    decreases |run|
  {
    hide Intake.Inv, Drain.GitSideTended, Intake.Apply, Intake.Enabled;
    if run != [] {
      assert run[0] in run && forall a <- run[1..] :: a in run;
      StepKeepsFront(c, s, run[0]);
      if run[0].Front? {
        Drain.GitSideKept(c, s.front, run[0].front);
      }
      CalmRunKeepsGitSide(c, Apply(c, s, run[0]), run[1..]);
    }
  }
}
