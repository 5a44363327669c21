/** What goes wrong when handles are shared, and that nothing else can make it go wrong.
    Every remote and every runner the program can be configured with has the handle "github",
    so sharing starts with the second one. */
module Sharing {
  import opened Basics
  import opened Protocol
  import Intake
  import Ci
  import opened Reach

  // ---- a series queued twice ----

  ghost predicate QueuesOnce(c: Config) {
    forall run, h, id :: Legal(c, Init(c), run) ==> Run(c, Init(c), run).front.queued[(h, id)] <= 1
  }

  /** A runner queue never gets a series twice exactly when no two remotes share a handle. */
  lemma QueuedOnceIffHandlesDistinct(c: Config, id: Id)
    requires Sighted(c) && c.workers > 0 && c.patches(id) != []
    ensures QueuesOnce(c) <==> Distinct(c.remotes)
  {
    hide Intake.Inv;
    hide Legal, Run;
    if Distinct(c.remotes) {
      forall run, h, x | Legal(c, Init(c), run) ensures Run(c, Init(c), run).front.queued[(h, x)] <= 1 {
        ReachedFront(c, run);
        QueuedAtMostOnce(c, Run(c, Init(c), run).front, h, x);
      }
    } else {
      var i, j :| 0 <= i < j < |c.remotes| && c.remotes[i] == c.remotes[j];
      var run := ReachRemote(c, id, |c.remotes|);
      ReachedFront(c, run);
      var f := Run(c, Init(c), run).front;
      Intake.ThreadFacts(c, f, 0);
      Intake.QueueFacts(c, f, id);
      assert c.remotes[..|c.remotes|] == c.remotes;
      TwiceCounted(c.remotes, i, j);
      assert f.queued[(c.remotes[i], id)] >= 2;
    }
  }

  lemma TwiceCounted(s: seq<Handle>, i: nat, j: nat)
    requires i < j < |s| && s[i] == s[j]
    ensures multiset(s)[s[i]] >= 2
  {
    assert s == s[..j] + [s[j]] + s[j + 1..];
    assert s[..j][i] == s[i];
    assert multiset(s) == multiset(s[..j]) + multiset{s[j]} + multiset(s[j + 1..]);
    assert s[i] in multiset(s[..j]);
  }

  // ---- a job reported twice ----

  ghost predicate ReportsOnce(c: Config) {
    forall run, h, id, n :: Legal(c, Init(c), run) ==> Run(c, Init(c), run).ci.reported[(h, id, n)] <= 1
  }

  /** The program starts a runner for each remote it is configured with. */
  predicate EachRemoteHasRunner(c: Config) {
    forall h <- c.remotes :: h in c.runners
  }

  /** A job of a series is never handed to the dispatcher twice exactly when no two remotes share
      a handle; several runners on one queue do no harm here. */
  lemma ReportedOnceIffHandlesDistinct(c: Config, id: Id)
    requires Sighted(c) && WordHandles(c) && EachRemoteHasRunner(c) && c.workers > 0 && c.patches(id) != []
    ensures ReportsOnce(c) <==> Distinct(c.remotes)
  {
    if Distinct(c.remotes) {
      forall run, h, x, n | Legal(c, Init(c), run) ensures Run(c, Init(c), run).ci.reported[(h, x, n)] <= 1 {
        hide Legal, Run, Inv;
        Reached(c, run);
        assert Ci.ReportedOk(Run(c, Init(c), run).ci.stage, Run(c, Init(c), run).ci.reported);
      }
    } else {
      var i, j :| 0 <= i < j < |c.remotes| && c.remotes[i] == c.remotes[j];
      var run := ReportTwice(c, id, i, j);
      assert Run(c, Init(c), run).ci.reported[(c.remotes[i], id, JOB.name)] >= 2;
    }
  }

  /** The series is taken and reported after the first of two remotes with one handle, and again
      after the second. */
  lemma ReportTwice(c: Config, id: Id, i: nat, j: nat) returns (run: seq<Action>)
    requires c.workers > 0 && c.patches(id) != [] && EachRemoteHasRunner(c)
    requires i < j < |c.remotes| && c.remotes[i] == c.remotes[j]
    ensures Legal(c, Init(c), run)
    ensures Run(c, Init(c), run).ci.reported[(c.remotes[i], id, JOB.name)] >= 2
  {
    hide Legal, Run, AtRemote;
    assert c.remotes[i] in c.remotes;
    var k :| 0 <= k < |c.runners| && c.runners[k] == c.remotes[i];
    run := ReachRemote(c, id, i + 1);
    assert (c.remotes[i], id) in Run(c, Init(c), run).ci.queue;
    run := TakeAndReport(c, id, i + 1, k, run);
    run := PushOn(c, id, i + 1, j + 1, run);
    assert (c.remotes[j], id) in Run(c, Init(c), run).ci.queue;
    run := TakeAndReport(c, id, j + 1, k, run);
  }

  // ---- two watchers on one queue ----

  ghost predicate NoSharedQueue(c: Config) {
    forall k, l :: 0 <= k < l < |c.runners| && c.runners[k] == c.runners[l] ==> c.runners[k] !in c.remotes
  }

  /** A series a job watcher is about to move is still in its queue. */
  ghost predicate JobsFindTheirKey(c: Config, s: Ci.Ci) {
    |s.jobs| == |c.runners| &&
    forall k :: 0 <= k < |s.jobs| && (s.jobs[k].Starting? || s.jobs[k].Moving?) ==>
      (c.runners[k], s.jobs[k].id) in s.queue
  }

  ghost predicate FromRemotes(c: Config, s: Ci.Ci) {
    forall x :: x in s.queue ==> x.0 in c.remotes
  }

  lemma StepKeepsJobs(c: Config, s: State, a: Action)
    requires NoSharedQueue(c) && FromRemotes(c, s.ci) && JobsFindTheirKey(c, s.ci) && Enabled(c, s, a)
    ensures FromRemotes(c, Apply(c, s, a).ci) && JobsFindTheirKey(c, Apply(c, s, a).ci)
  {
    if a.Front? {
      FrontOutput(c, s.front, a.front);
    }
  }

  lemma {:induction false} RunKeepsJobs(c: Config, s: State, run: seq<Action>)
    requires NoSharedQueue(c) && FromRemotes(c, s.ci) && JobsFindTheirKey(c, s.ci) && Legal(c, s, run)
    ensures JobsFindTheirKey(c, Run(c, s, run).ci)
    decreases |run|
  {
    if run != [] {
      StepKeepsJobs(c, s, run[0]);
      RunKeepsJobs(c, Apply(c, s, run[0]), run[1..]);
    }
  }

  /** Two watchers pick the same series; the first moves it, the second finds nothing to move. */
  lemma SecondWatcherMisses(c: Config, id: Id, k: nat, l: nat) returns (run: seq<Action>)
    requires c.workers > 0 && c.patches(id) != []
    requires k < l < |c.runners| && c.runners[k] == c.runners[l] && c.runners[k] in c.remotes
    ensures Legal(c, Init(c), run)
    ensures !JobsFindTheirKey(c, Run(c, Init(c), run).ci)
  {
    run := ReachRemote(c, id, |c.remotes|);
    var i :| 0 <= i < |c.remotes| && c.remotes[i] == c.runners[k];
    assert (c.remotes[i], id) in Run(c, Init(c), run).ci.queue;
    var s := Run(c, Init(c), run).ci;
    run, s := WalkCi(c, run, Ci.JobPick(k, id));
    run, s := WalkCi(c, run, Ci.JobPick(l, id));
    run, s := WalkCi(c, run, Ci.JobStart(k));
    run, s := WalkCi(c, run, Ci.JobMove(k));
    assert s.jobs[l] == Ci.Starting(id);
  }

  /** The move out of a runner queue always finds its key exactly when no two runners watch the
      same queue of a configured remote. */
  lemma JobMovesFindTheirKeyIffUnshared(c: Config, id: Id)
    requires c.workers > 0 && c.patches(id) != []
    ensures (forall run :: Legal(c, Init(c), run) ==> JobsFindTheirKey(c, Run(c, Init(c), run).ci)) <==>
              NoSharedQueue(c)
  {
    if NoSharedQueue(c) {
      forall run | Legal(c, Init(c), run) ensures JobsFindTheirKey(c, Run(c, Init(c), run).ci) {
        RunKeepsJobs(c, Init(c), run);
      }
    } else {
      var k, l :| 0 <= k < l < |c.runners| && c.runners[k] == c.runners[l] && c.runners[k] in c.remotes;
      var run := SecondWatcherMisses(c, id, k, l);
    }
  }
}
