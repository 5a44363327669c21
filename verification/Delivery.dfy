/** Everything a runner was seen to finish arrives: after a run in which nothing gave up, once the
    pipeline has emptied, each finished result that was ever polled has its check on the server,
    and each series is settled. */
module Delivery {
  import opened Basics
  import opened Codec
  import opened Protocol
  import Intake
  import Ci
  import Outbox
  import Drain
  import Guarantees

  /** A watcher is about to report the result. */
  ghost predicate Pending(watchers: seq<Ci.Watcher>, h: Handle, id: Id, r: RunnerResult) {
    exists t :: 0 <= t < |watchers| && Ci.Pair(watchers[t]) == (h, id) && watchers[t].pc.Reporting?
                && r in watchers[t].pc.todo
  }

  ghost predicate AccountedFor(s: Ci.Ci, h: Handle, id: Id, r: RunnerResult) {
    (h, id, r) in s.finished ==> (h, id, r.name) in s.reported || Pending(s.watchers, h, id, r)
  }

  /** A watcher's list of completed jobs holds only what was reported. */
  ghost predicate ListReported(v: Ci.Watcher, reported: multiset<(Handle, Id, string)>) {
    forall n <- v.completed :: (v.handle, v.id, n) in reported
  }

  ghost predicate ListsReported(s: Ci.Ci) {
    forall t :: 0 <= t < |s.watchers| ==> ListReported(s.watchers[t], s.reported)
  }

  ghost predicate Kept(s: Ci.Ci) {
    ListsReported(s) && forall h, id, r :: AccountedFor(s, h, id, r)
  }

  lemma PendingFrame(ws: seq<Ci.Watcher>, ws': seq<Ci.Watcher>, t: nat, h: Handle, id: Id, r: RunnerResult)
    requires t < |ws| <= |ws'| && forall u :: 0 <= u < |ws| && u != t ==> ws'[u] == ws[u]
    requires Pending(ws, h, id, r)
    ensures Pending(ws', h, id, r) || (Ci.Pair(ws[t]) == (h, id) && ws[t].pc.Reporting? && r in ws[t].pc.todo)
  {
    var u :| 0 <= u < |ws| && Ci.Pair(ws[u]) == (h, id) && ws[u].pc.Reporting? && r in ws[u].pc.todo;
    assert u != t ==> ws'[u] == ws[u];
  }

  lemma JobKeeps(c: Config, s: Ci.Ci, a: Ci.Action)
    requires Kept(s) && Ci.Enabled(c, s, a)
    requires a.JobPick? || a.JobStart? || a.JobMove? || a.JobSpawn?
    ensures Kept(Ci.Apply(c, s, a))
  {
    var s' := Ci.Apply(c, s, a);
    assert s'.reported == s.reported && s'.finished == s.finished && s.watchers <= s'.watchers;
    forall h: Handle, id: Id, r ensures AccountedFor(s', h, id, r) {
      assert AccountedFor(s, h, id, r);
      if Pending(s.watchers, h, id, r) {
        var u :| 0 <= u < |s.watchers| && Ci.Pair(s.watchers[u]) == (h, id) && s.watchers[u].pc.Reporting?
                 && r in s.watchers[u].pc.todo;
        assert s'.watchers[u] == s.watchers[u];
      }
    }
    forall t | 0 <= t < |s'.watchers| ensures ListReported(s'.watchers[t], s'.reported) {
      assert t < |s.watchers| ==> s'.watchers[t] == s.watchers[t];
    }
  }

  lemma ListsKept(c: Config, s: Ci.Ci, a: Ci.Action)
    requires ListsReported(s) && Ci.Enabled(c, s, a)
    requires a.Poll? || a.Report? || a.RoundEnd? || a.Leave?
    ensures ListsReported(Ci.Apply(c, s, a))
  {
    var s' := Ci.Apply(c, s, a);
    assert ListReported(s.watchers[a.t], s.reported);
    forall t | 0 <= t < |s'.watchers| ensures ListReported(s'.watchers[t], s'.reported) {
      assert ListReported(s.watchers[t], s.reported);
      assert t != a.t ==> s'.watchers[t] == s.watchers[t];
    }
  }

  lemma WatchKeeps(c: Config, s: Ci.Ci, a: Ci.Action, h: Handle, id: Id, r: RunnerResult)
    requires ListsReported(s) && AccountedFor(s, h, id, r) && Ci.Enabled(c, s, a)
    requires a.Poll? || a.Report? || a.RoundEnd? || a.Leave?
    ensures AccountedFor(Ci.Apply(c, s, a), h, id, r)
  {
    var s', v, t := Ci.Apply(c, s, a), s.watchers[a.t], a.t;
    assert ListReported(v, s.reported);
    assert forall u :: 0 <= u < |s.watchers| && u != t ==> s'.watchers[u] == s.watchers[u];
    if Pending(s.watchers, h, id, r) {
      PendingFrame(s.watchers, s'.watchers, t, h, id, r);
      if a.Report? && Ci.Pair(v) == (h, id) && r in v.pc.todo && r != v.pc.todo[0] {
        assert r in s'.watchers[t].pc.todo;
      }
    }
    if a.Poll? && (h, id, r) in s'.finished && (h, id, r) !in s.finished {
      assert r in s'.watchers[t].pc.todo;
    }
  }

  lemma StepKeeps(c: Config, s: State, a: Action)
    requires Kept(s.ci) && Enabled(c, s, a) && !a.Crash?
    ensures Kept(Apply(c, s, a).ci)
  {
    match a
    case Front(b) => ArriveKeeps(c, s, b);
    case Runner(b) =>
      hide Ci.Apply, Ci.Enabled, Outbox.Deliver, Ci.Output;
      if b.Poll? || b.Report? || b.RoundEnd? || b.Leave? {
        ListsKept(c, s.ci, b);
        forall h, id, r ensures AccountedFor(Ci.Apply(c, s.ci, b), h, id, r) {
          assert AccountedFor(s.ci, h, id, r);
          WatchKeeps(c, s.ci, b, h, id, r);
        }
      } else {
        JobKeeps(c, s.ci, b);
      }
    case Dispatcher(_) => hide Outbox.Apply;
  }

  lemma ArriveKeeps(c: Config, s: State, b: Intake.Action)
    requires Kept(s.ci) && Enabled(c, s, Front(b))
    ensures Kept(Apply(c, s, Front(b)).ci)
  {
    hide Intake.Apply, Intake.Enabled, Intake.Output;
    var s' := Apply(c, s, Front(b)).ci;
    assert s'.watchers == s.ci.watchers && s'.reported == s.ci.reported && s'.finished == s.ci.finished;
    forall h, id, r ensures AccountedFor(s', h, id, r) {
      assert AccountedFor(s.ci, h, id, r);
    }
  }

  lemma {:induction false} RunKeeps(c: Config, s: State, run: seq<Action>)
    requires Kept(s.ci) && Legal(c, s, run) && forall a <- run :: Drain.Calm(a)
    ensures Kept(Run(c, s, run).ci)
    decreases |run|
  {
    hide Kept, Enabled, Apply;
    if run != [] {
      assert run[0] in run && forall a <- run[1..] :: a in run;
      StepKeeps(c, s, run[0]);
      RunKeeps(c, Apply(c, s, run[0]), run[1..]);
    }
  }

  /** Runs have come to their end: the steps of `more` were productive and none is left. */
  ghost predicate Finishes(c: Config, answers: Drain.Answers, s: State, more: seq<Action>) {
    && Drain.ProductiveRun(c, answers, s, more) && Legal(c, s, more)
    && forall a :: !Drain.Productive(c, answers, Run(c, s, more), a)
  }

  lemma NothingPending(c: Config, answers: Drain.Answers, s: State, h: Handle, id: Id, r: RunnerResult)
    requires forall a :: !Drain.Productive(c, answers, s, a)
    ensures !Pending(s.ci.watchers, h, id, r)
  {
    if t: nat :| t < |s.ci.watchers| && Ci.Pair(s.ci.watchers[t]) == (h, id) && s.ci.watchers[t].pc.Reporting?
                 && r in s.ci.watchers[t].pc.todo {
      assert Drain.Productive(c, answers, s, Runner(Ci.Report(t)));
    }
  }

  /** What holds where such a run ends. */
  lemma AtTheEnd(c: Config, answers: Drain.Answers, run: seq<Action>, more: seq<Action>)
    requires Sighted(c) && WordHandles(c) && Drain.Staffed(c) && Legal(c, Init(c), run)
    requires forall a <- run :: Drain.Calm(a)
    requires forall h, id :: Drain.AllFinished(answers(h, id))
    requires Finishes(c, answers, Run(c, Init(c), run), more)
    ensures Legal(c, Init(c), run + more)
    ensures var end := Run(c, Init(c), run + more);
            && Kept(end.ci) && Drain.Drained(end)
            && forall h, id, r :: !Pending(end.ci.watchers, h, id, r)
  {
    assert Kept(Init(c).ci);
    hide Legal, Run, Kept, Drain.Drained, Drain.AllFinished, Drain.Productive, Pending, Drain.ProductiveRun;
    RunKeeps(c, Init(c), run);
    var s := Run(c, Init(c), run);
    Drain.ProductiveRunIsCalm(c, answers, s, more);
    RunKeeps(c, s, more);
    Drain.CalmRunsEmpty(c, answers, run, more);
    RunAppend(c, Init(c), run, more);
    forall h, id, r ensures !Pending(Run(c, s, more).ci.watchers, h, id, r) {
      NothingPending(c, answers, Run(c, s, more), h, id, r);
    }
  }

  /** Delivery: after a run without crash and without a task that gave up, when every schedule of
      productive steps has come to its end, each finished result that any poll returned has been
      handed over and removed, and with a token there is a check with its context on the last
      patch of its series. */
  lemma EveryResultArrives(c: Config, answers: Drain.Answers, run: seq<Action>, more: seq<Action>,
                           h: Handle, id: Id, r: RunnerResult)
    requires Sighted(c) && WordHandles(c) && Drain.Staffed(c) && Legal(c, Init(c), run)
    requires forall a <- run :: Drain.Calm(a)
    requires forall h, id :: Drain.AllFinished(answers(h, id))
    requires Finishes(c, answers, Run(c, Init(c), run), more)
    requires (h, id, r) in Run(c, Run(c, Init(c), run), more).ci.finished
    ensures var p, key := Run(c, Run(c, Init(c), run), more).out, FormatKey(h, id, r.name);
            && key in p.handled && key !in p.dispatch
            && (c.token ==> Outbox.OnServer(c, p.checks, key))
  {
    hide Legal, Pending, Drain.AllFinished, Drain.ProductiveRun, Drain.Productive, FormatKey, Outbox.OnServer;
    AtTheEnd(c, answers, run, more);
    RunAppendFinishes(c, answers, run, more);
    var end := Run(c, Init(c), run + more);
    assert AccountedFor(end.ci, h, id, r);
    hide Run;
    Guarantees.RemovedMeansReported(c, run + more, h, id, r.name);
  }

  lemma RunAppendFinishes(c: Config, answers: Drain.Answers, run: seq<Action>, more: seq<Action>)
    requires Legal(c, Init(c), run) && Finishes(c, answers, Run(c, Init(c), run), more)
    ensures Legal(c, Init(c), run + more) && Run(c, Init(c), run + more) == Run(c, Run(c, Init(c), run), more)
  {
    RunAppend(c, Init(c), run, more);
  }

  /** And each series that ever entered ends in "git failures" or through git; in the latter case
      it arrived at the runner of each remote, and when no two remotes share a handle its watcher
      there has left. */
  lemma EverySeriesIsSettled(c: Config, answers: Drain.Answers, run: seq<Action>, more: seq<Action>, id: Id)
    requires Sighted(c) && WordHandles(c) && Drain.Staffed(c) && Legal(c, Init(c), run)
    requires forall a <- run :: Drain.Calm(a)
    requires forall h, id :: Drain.AllFinished(answers(h, id))
    requires Finishes(c, answers, Run(c, Init(c), run), more)
    requires id in Run(c, Run(c, Init(c), run), more).front.entered
    ensures Settled(c, Run(c, Run(c, Init(c), run), more), id)
  {
    AtTheEnd(c, answers, run, more);
    RunAppendFinishes(c, answers, run, more);
    hide Legal, Run, Finishes, Settled, Inv, Unique, Drain.Drained;
    Reached(c, run + more);
    SettledWhenDrained(c, Run(c, Init(c), run + more), id);
  }

  ghost predicate Settled(c: Config, s: State, id: Id) {
    id in s.front.failures
    || (Guarantees.At(s.front, id, Guarantees.ThroughGit) && forall h <- c.remotes :: SettledAt(c, s.ci, h, id))
  }

  ghost predicate SettledAt(c: Config, s: Ci.Ci, h: Handle, id: Id) {
    (h, id) in s.arrived && (Distinct(c.remotes) ==> (h, id) in s.stage && s.stage[(h, id)].Reported?)
  }

  lemma SettledWhenDrained(c: Config, s: State, id: Id)
    requires Inv(c, s) && (Distinct(c.remotes) ==> Unique(c, s)) && Drain.Drained(s) && id in s.front.entered
    ensures Settled(c, s, id)
  {
    hide Intake.Inv, Intake.Rooted, Ci.Unique, Ci.Sound, Outbox.Sound, Outbox.Faithful, KeysReported;
    if id !in s.front.failures {
      ThroughAtTheEnd(c, s, id);
      forall h | h in c.remotes ensures SettledAt(c, s.ci, h, id) {
        AllRemotes(c, s, id, h);
        if Distinct(c.remotes) {
          ReportedAtTheEnd(c, s.ci, h, id);
        }
      }
    }
  }

  lemma ThroughAtTheEnd(c: Config, s: State, id: Id)
    requires Intake.Inv(c, s.front) && Drain.Drained(s) && id in s.front.entered && id !in s.front.failures
    ensures id in s.front.stage && s.front.stage[id].GitDone?
  {
    hide Intake.Inv;
    assert s.front.entered[id] > 0;
    Intake.SeriesFacts(c, s.front, 0, id);
    if s.front.stage[id].Worker? {
      Intake.SeriesFacts(c, s.front, s.front.stage[id].w, id);
    }
  }

  lemma AllRemotes(c: Config, s: State, id: Id, h: Handle)
    requires Intake.Inv(c, s.front) && Coupled(s) && id in s.front.stage && s.front.stage[id].GitDone? && h in c.remotes
    ensures (h, id) in s.ci.arrived
  {
    hide Intake.Inv, FormatKey;
    Intake.QueueFacts(c, s.front, id);
    assert c.remotes[..|c.remotes|] == c.remotes && h in multiset(c.remotes);
    assert s.front.queued[(h, id)] > 0;
  }

  lemma ReportedAtTheEnd(c: Config, s: Ci.Ci, h: Handle, id: Id)
    requires Ci.Unique(c, s) && s.queue == {} && s.working == {} && (h, id) in s.arrived
    ensures (h, id) in s.stage && s.stage[(h, id)].Reported?
  {
    hide Ci.JobsOk, Ci.WatchersOk, Ci.ReportedOk;
    assert s.arrived[(h, id)] > 0;
  }
}
