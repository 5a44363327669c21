/** The passes of the ingest loop, of a job watcher and of the watchcat over their lists are runs
    of the transition system: what each method leaves in the trees is what these very steps leave. */
module PassRefinement {
  import opened Basics
  import opened Codec
  import opened Database
  import opened Protocol
  import opened Trees
  import Intake
  import Ci
  import GitWork
  import Watching
  import Ingesting
  import Scan
  import Refinement

  // ---- the ingest loop ----

  /** The steps that take one series over, and those that take over a list. */
  function IngestOne(id: Id): seq<Action> {
    [Front(Intake.IngestPick(id)), Front(Intake.IngestMove), Front(Intake.IngestSpawn)]
  }

  function IngestSteps(ids: seq<Id>): seq<Action> {
    if ids == [] then [] else IngestOne(ids[0]) + IngestSteps(ids[1..])
  }

  /** These series went from "needs testing" to "awaiting git worker", a task for each. */
  ghost predicate Ingested(s: State, s': State, ids: seq<Id>) {
    && (forall id :: id in s'.front.needsTesting <==> id in s.front.needsTesting && id !in ids)
    && (forall id :: id in s'.front.needsTesting ==> s'.front.needsTesting[id] == s.front.needsTesting[id])
    && (forall id :: id in s'.front.awaiting <==> id in s.front.awaiting || id in ids)
    && (forall id :: id in ids ==> id in s.front.needsTesting && id in s'.front.awaiting
                                   && s'.front.awaiting[id] == s.front.needsTesting[id])
    && (forall id :: id in s.front.awaiting && id !in ids ==>
          id in s'.front.awaiting && s'.front.awaiting[id] == s.front.awaiting[id])
    && s'.front.spawned == s.front.spawned + multiset(ids)
    && s'.front.seen == s.front.seen && s'.front.failures == s.front.failures
    && s'.front.onWorker == s.front.onWorker && s'.front.ingest == s.front.ingest
    && s'.ci == s.ci && s'.out == s.out
  }

  lemma IngestOneRuns(c: Config, s: State, id: Id) returns (s': State)
    requires s.front.ingest.Resting? && id in s.front.needsTesting
    ensures Legal(c, s, IngestOne(id)) && s' == Run(c, s, IngestOne(id))
    ensures Ingested(s, s', [id])
  {
    Refinement.Stay(c, s);
    hide Legal, Run, Ingested;
    var pick, move, spawn := Front(Intake.IngestPick(id)), Front(Intake.IngestMove), Front(Intake.IngestSpawn);
    Refinement.Then(c, s, [], pick);
    assert [] + [pick] == [pick] && [pick] + [move] == [pick, move] && [pick, move] + [spawn] == IngestOne(id);
    Refinement.Then(c, s, [pick], move);
    Refinement.Then(c, s, [pick, move], spawn);
    s' := Run(c, s, IngestOne(id));
    OneIngested(s, s', id);
  }

  lemma OneIngested(s: State, s': State, id: Id)
    requires id in s.front.needsTesting && s'.ci == s.ci && s'.out == s.out && s.front.ingest == s'.front.ingest
    requires s'.front == s.front.(needsTesting := s.front.needsTesting - {id}, stage := s'.front.stage,
                                  awaiting := s.front.awaiting[id := s.front.needsTesting[id]],
                                  spawned := s.front.spawned + multiset{id})
    ensures Ingested(s, s', [id])
  {
  }

  lemma IngestedMore(s: State, s1: State, s2: State, id: Id, ids: seq<Id>)
    requires Ingested(s, s1, [id]) && Ingested(s1, s2, ids) && id !in ids
    ensures Ingested(s, s2, [id] + ids)
  {
    assert multiset([id] + ids) == multiset([id]) + multiset(ids);
    assert forall x :: x in [id] + ids <==> x == id || x in ids;
  }

  lemma NothingIngested(s: State)
    ensures Ingested(s, s, [])
  {
  }

  lemma {:induction false} IngestRuns(c: Config, s: State, ids: seq<Id>) returns (s': State)
    requires s.front.ingest.Resting? && Distinct(ids) && forall id <- ids :: id in s.front.needsTesting
    ensures Legal(c, s, IngestSteps(ids)) && s' == Run(c, s, IngestSteps(ids))
    ensures Ingested(s, s', ids)
    decreases |ids|
  {
    hide Ingested;
    if ids == [] {
      s' := s;
      Refinement.Stay(c, s);
      NothingIngested(s);
    } else {
      hide Legal, Run;
      var s1 := IngestOneRuns(c, s, ids[0]);
      StillThere(s, s1, ids);
      s' := IngestRuns(c, s1, ids[1..]);
      RunAppend(c, s, IngestOne(ids[0]), IngestSteps(ids[1..]));
      IngestedMore(s, s1, s', ids[0], ids[1..]);
      assert [ids[0]] + ids[1..] == ids;
    }
  }

  lemma StillThere(s: State, s1: State, ids: seq<Id>)
    requires ids != [] && Distinct(ids) && (forall id <- ids :: id in s.front.needsTesting)
    requires Ingested(s, s1, [ids[0]])
    ensures Distinct(ids[1..]) && ids[0] !in ids[1..] && forall id <- ids[1..] :: id in s1.front.needsTesting
    ensures s1.front.ingest == s.front.ingest
  {
    assert forall id <- ids[1..] :: id in ids;
  }

  /** What `IngestPass` leaves in all the trees, and the tasks it spawned, are those of these steps.
      An error of a move, which leaves its key where it was, ends the process. */
  lemma IngestRefines(c: Config, s: State, order: seq<Id>, spawned: seq<Id>, ok: bool,
                      before: map<string, Tree>, after: map<string, Tree>)
    returns (run: seq<Action>)
    requires s.front.ingest.Resting? && Represents(before, s)
    requires Distinct(order) && forall id <- order :: Num(id) in TreeIn(before, "needs testing")
    requires spawned <= order && (ok <==> spawned == order)
    requires Ingesting.IngestDone(before, after, spawned)
    ensures run == IngestSteps(spawned) +
                   if ok then [] else [Front(Intake.IngestPick(order[|spawned|])), Crash]
    ensures Legal(c, s, run) && Represents(after, Run(c, s, run))
    ensures ok ==> var f := Run(c, s, run).front; f.ingest.Resting? && f.spawned == s.front.spawned + multiset(order)
  {
    InNeeds(before, s, order);
    assert forall id <- spawned :: id in order;
    hide Legal, Run, Ingested, At, Ingesting.IngestDone, TreeIn, Enabled, Apply;
    var s1 := IngestRuns(c, s, spawned);
    IngestTail(s, s1, order, spawned);
    run := IngestSteps(spawned);
    if !ok {
      var pick := Front(Intake.IngestPick(order[|spawned|]));
      PickAndCrash(c, s1, order[|spawned|]);
      RunAppend(c, s, run, [pick, Crash]);
      run := run + [pick, Crash];
    } else {
      assert run + [] == run;
    }
    forall p ensures At(after, Run(c, s, run), p) {
      assert At(before, s, p) && At(before, s, Needs);
      IngestPlace(s, s1, spawned, before, after, p);
      SameTrees(after, s1, Run(c, s, run), p);
    }
  }

  lemma InNeeds(trees: map<string, Tree>, s: State, ids: seq<Id>)
    requires Represents(trees, s)
    requires forall id <- ids :: Num(id) in TreeIn(trees, "needs testing")
    ensures forall id <- ids :: id in s.front.needsTesting
  {
    assert At(trees, s, Needs);
  }

  lemma IngestTail(s: State, s1: State, order: seq<Id>, done: seq<Id>)
    requires Distinct(order) && done <= order && Ingested(s, s1, done) && s.front.ingest.Resting?
    requires forall id <- order :: id in s.front.needsTesting
    ensures s1.front.ingest.Resting? && s1.front.spawned == s.front.spawned + multiset(done)
    ensures done != order ==> |done| < |order| && order[|done|] in s1.front.needsTesting
  {
    if done != order {
      assert |done| < |order|;
      Refinement.NotYetDropped(order, |done|);
      assert order[..|done|] == done;
    }
  }

  lemma PickAndCrash(c: Config, s: State, id: Id)
    requires s.front.ingest.Resting? && id in s.front.needsTesting
    ensures var run := [Front(Intake.IngestPick(id)), Crash];
            Legal(c, s, run) && SameTreesAs(s, Run(c, s, run))
  {
    Refinement.Stay(c, s);
    hide Legal, Run;
    var pick := Front(Intake.IngestPick(id));
    Refinement.Then(c, s, [], pick);
    assert [] + [pick] == [pick] && [pick] + [Crash] == [pick, Crash];
    Refinement.Then(c, s, [pick], Crash);
  }

  /** Whatever else changed, the trees did not. */
  ghost predicate SameTreesAs(s: State, s': State) {
    SameFront(s, s') && s'.ci.queue == s.ci.queue && s'.ci.working == s.ci.working && s'.out.dispatch == s.out.dispatch
  }

  lemma SameTrees(trees: map<string, Tree>, s: State, s': State, p: Place)
    requires At(trees, s, p) && SameTreesAs(s, s')
    ensures At(trees, s', p)
  {
    hide At;
    Frame(trees, trees, s, s', p);
  }

  lemma IngestPlace(s: State, s': State, ids: seq<Id>, before: map<string, Tree>, after: map<string, Tree>, p: Place)
    requires At(before, s, p) && At(before, s, Needs) && Ingested(s, s', ids)
    requires Ingesting.IngestDone(before, after, ids)
    ensures At(after, s', p)
  {
    NamesInUse(0, "");
    NamesApart(p, Needs);
    NamesApart(p, Awaiting);
    hide NameOf, TreeIn;
    EncodedIn(ids);
    hide Ingesting.Encoded;
    if p == Needs {
      LeftNeeds(In(before, p), In(after, p), s.front.needsTesting, s'.front.needsTesting, ids);
    } else if p == Awaiting {
      CameToAwaiting(In(before, Needs), In(before, p), In(after, p), s, s', ids);
    } else {
      Frame(before, after, s, s', p);
    }
  }

  lemma LeftNeeds(before: Tree, after: Tree, needs: map<Id, string>, needs': map<Id, string>, ids: seq<Id>)
    requires HoldsIds(before, needs)
    requires forall id: Id :: Num(id) in after <==> Num(id) in before && id !in ids
    requires forall id: Id :: Num(id) in after ==> after[Num(id)] == before[Num(id)]
    requires forall id :: id in needs' <==> id in needs && id !in ids
    requires forall id :: id in needs' ==> needs'[id] == needs[id]
    ensures HoldsIds(after, needs')
  {
  }

  lemma CameToAwaiting(source: Tree, before: Tree, after: Tree, s: State, s': State, ids: seq<Id>)
    requires HoldsIds(source, s.front.needsTesting) && HoldsIds(before, s.front.awaiting) && Ingested(s, s', ids)
    requires forall id: Id :: Num(id) in after <==> Num(id) in before || id in ids
    requires forall id: Id :: id in ids ==> Num(id) in source && after[Num(id)] == source[Num(id)]
    requires forall id: Id :: Num(id) in before && id !in ids ==> after[Num(id)] == before[Num(id)]
    ensures HoldsIds(after, s'.front.awaiting)
  {
  }

  lemma EncodedIn(ids: seq<Id>)
    ensures forall id: Id :: Num(id) in Ingesting.Encoded(ids) <==> id in ids
  {
    forall id: Id ensures Num(id) in Ingesting.Encoded(ids) <==> id in ids {
      if id in ids {
        var i :| 0 <= i < |ids| && ids[i] == id;
        assert Ingesting.Encoded(ids)[i] == Num(id);
      }
    }
  }

  // ---- a job watcher ----

  function JobOne(k: nat, id: Id): seq<Action> {
    [Runner(Ci.JobPick(k, id)), Runner(Ci.JobStart(k)), Runner(Ci.JobMove(k)), Runner(Ci.JobSpawn(k))]
  }

  function JobSteps(k: nat, ids: seq<Id>): seq<Action> {
    if ids == [] then [] else JobOne(k, ids[0]) + JobSteps(k, ids[1..])
  }

  function NewWatchers(h: Handle, ids: seq<Id>): seq<Ci.Watcher> {
    seq(|ids|, i requires 0 <= i < |ids| => Ci.Watcher(h, ids[i], [], Ci.Polling))
  }

  /** These series went from the queue of the handle to its working tree, a watcher for each. */
  ghost predicate Started(s: State, s': State, h: Handle, ids: seq<Id>) {
    && (forall g, id :: (g, id) in s'.ci.queue <==> (g, id) in s.ci.queue && !(g == h && id in ids))
    && (forall g, id :: (g, id) in s'.ci.working <==> (g, id) in s.ci.working || (g == h && id in ids))
    && s'.ci.watchers == s.ci.watchers + NewWatchers(h, ids) && s'.ci.jobs == s.ci.jobs
    && s'.front == s.front && s'.out == s.out
  }

  lemma JobOneRuns(c: Config, s: State, k: nat, id: Id) returns (s': State)
    requires k < |s.ci.jobs| == |c.runners| && s.ci.jobs[k].JobIdle? && (c.runners[k], id) in s.ci.queue
    ensures Legal(c, s, JobOne(k, id)) && s' == Run(c, s, JobOne(k, id))
    ensures Started(s, s', c.runners[k], [id])
  {
    Refinement.Stay(c, s);
    hide Legal, Run;
    var pick, start, move, spawn :=
      Runner(Ci.JobPick(k, id)), Runner(Ci.JobStart(k)), Runner(Ci.JobMove(k)), Runner(Ci.JobSpawn(k));
    Refinement.Then(c, s, [], pick);
    assert [] + [pick] == [pick] && [pick] + [start] == [pick, start] && [pick, start] + [move] == [pick, start, move];
    Refinement.Then(c, s, [pick], start);
    Refinement.Then(c, s, [pick, start], move);
    assert [pick, start, move] + [spawn] == JobOne(k, id);
    Refinement.Then(c, s, [pick, start, move], spawn);
    s' := Run(c, s, JobOne(k, id));
    assert s'.ci.jobs == s.ci.jobs;
    assert NewWatchers(c.runners[k], [id]) == [Ci.Watcher(c.runners[k], id, [], Ci.Polling)];
  }

  lemma StartedMore(s: State, s1: State, s2: State, h: Handle, id: Id, ids: seq<Id>)
    requires Started(s, s1, h, [id]) && Started(s1, s2, h, ids)
    ensures Started(s, s2, h, [id] + ids)
  {
    assert NewWatchers(h, [id] + ids) == NewWatchers(h, [id]) + NewWatchers(h, ids);
    assert s2.ci.watchers == s.ci.watchers + NewWatchers(h, [id] + ids);
    hide NewWatchers;
    assert forall x :: x in [id] + ids <==> x == id || x in ids;
  }

  lemma NothingStarted(s: State, h: Handle)
    ensures Started(s, s, h, [])
  {
  }

  lemma {:induction false} JobsRun(c: Config, s: State, k: nat, ids: seq<Id>) returns (s': State)
    requires k < |s.ci.jobs| == |c.runners| && s.ci.jobs[k].JobIdle?
    requires Distinct(ids) && forall id <- ids :: (c.runners[k], id) in s.ci.queue
    ensures Legal(c, s, JobSteps(k, ids)) && s' == Run(c, s, JobSteps(k, ids))
    ensures Started(s, s', c.runners[k], ids)
    decreases |ids|
  {
    hide Started;
    if ids == [] {
      s' := s;
      Refinement.Stay(c, s);
      NothingStarted(s, c.runners[k]);
    } else {
      hide Legal, Run;
      var s1 := JobOneRuns(c, s, k, ids[0]);
      StillQueued(s, s1, c.runners[k], ids);
      s' := JobsRun(c, s1, k, ids[1..]);
      RunAppend(c, s, JobOne(k, ids[0]), JobSteps(k, ids[1..]));
      StartedMore(s, s1, s', c.runners[k], ids[0], ids[1..]);
      assert [ids[0]] + ids[1..] == ids;
    }
  }

  lemma StillQueued(s: State, s1: State, h: Handle, ids: seq<Id>)
    requires ids != [] && Distinct(ids) && (forall id <- ids :: (h, id) in s.ci.queue) && Started(s, s1, h, [ids[0]])
    ensures Distinct(ids[1..]) && forall id <- ids[1..] :: (h, id) in s1.ci.queue
    ensures s1.ci.jobs == s.ci.jobs
  {
    assert forall id <- ids[1..] :: id in ids;
  }

  /** The steps after which an error ends the process. */
  function JobEnd(k: nat, id: Id, end: Ingesting.PassEnd): seq<Action> {
    if end.MoveFailed? then [Runner(Ci.JobPick(k, id)), Runner(Ci.JobStart(k)), Crash]
    else [Runner(Ci.JobPick(k, id)), Crash]
  }

  /** What `QueuePass` of the `k`-th runner leaves in all the trees, and the watchers it spawned, are
      those of these steps, whether it goes through or an error ends the process. */
  lemma QueueRefines(c: Config, s: State, k: nat, order: seq<Id>, watched: seq<Id>, end: Ingesting.PassEnd,
                     before: map<string, Tree>, after: map<string, Tree>)
    returns (run: seq<Action>)
    requires k < |s.ci.jobs| == |c.runners| && s.ci.jobs[k].JobIdle? && Represents(before, s)
    requires Distinct(order)
    requires forall id <- order :: Text(Decimal(id)) in TreeIn(before, GitWork.QueueTree(c.runners[k]))
    requires watched <= order && (end.Complete? <==> watched == order)
    requires Ingesting.QueueDone(before, after, c.runners[k], watched)
    ensures run == JobSteps(k, watched) + if end.Complete? then [] else JobEnd(k, order[|watched|], end)
    ensures Legal(c, s, run) && Represents(after, Run(c, s, run))
    ensures end.Complete? ==>
              var s' := Run(c, s, run);
              s'.ci.jobs == s.ci.jobs && s'.ci.watchers == s.ci.watchers + NewWatchers(c.runners[k], order)
  {
    InQueue(before, s, c.runners[k], order);
    assert forall id <- watched :: id in order;
    hide Legal, Run, Started, At, Ingesting.QueueDone, TreeIn, Enabled, Apply, Decimal, JobEnd, GitWork.QueueTree;
    hide Watching.WorkingTree;
    var s1 := JobsRun(c, s, k, watched);
    JobTail(s, s1, c.runners[k], order, watched);
    run := JobSteps(k, watched);
    if !end.Complete? {
      JobEndRuns(c, s1, k, order[|watched|], end);
      RunAppend(c, s, run, JobEnd(k, order[|watched|], end));
      run := run + JobEnd(k, order[|watched|], end);
    } else {
      assert run + [] == run;
    }
    forall p ensures At(after, Run(c, s, run), p) {
      assert At(before, s, p) && At(before, s, QueueOf(c.runners[k]));
      QueuePassPlace(s, s1, c.runners[k], watched, before, after, p);
      SameTrees(after, s1, Run(c, s, run), p);
    }
  }

  lemma InQueue(trees: map<string, Tree>, s: State, h: Handle, ids: seq<Id>)
    requires Represents(trees, s)
    requires forall id <- ids :: Text(Decimal(id)) in TreeIn(trees, GitWork.QueueTree(h))
    ensures forall id <- ids :: (h, id) in s.ci.queue
  {
    hide Decimal;
    assert At(trees, s, QueueOf(h));
  }

  lemma JobTail(s: State, s1: State, h: Handle, order: seq<Id>, done: seq<Id>)
    requires Distinct(order) && done <= order && Started(s, s1, h, done)
    requires forall id <- order :: (h, id) in s.ci.queue
    ensures s1.ci.jobs == s.ci.jobs && s1.ci.watchers == s.ci.watchers + NewWatchers(h, done)
    ensures done != order ==> |done| < |order| && (h, order[|done|]) in s1.ci.queue
  {
    if done != order {
      assert |done| < |order|;
      Refinement.NotYetDropped(order, |done|);
      assert order[..|done|] == done;
    }
  }

  lemma JobEndRuns(c: Config, s: State, k: nat, id: Id, end: Ingesting.PassEnd)
    requires k < |s.ci.jobs| == |c.runners| && s.ci.jobs[k].JobIdle? && (c.runners[k], id) in s.ci.queue
    ensures Legal(c, s, JobEnd(k, id, end)) && SameTreesAs(s, Run(c, s, JobEnd(k, id, end)))
  {
    Refinement.Stay(c, s);
    hide Legal, Run;
    var pick, start := Runner(Ci.JobPick(k, id)), Runner(Ci.JobStart(k));
    Refinement.Then(c, s, [], pick);
    assert [] + [pick] == [pick] && [pick] + [Crash] == [pick, Crash] && [pick] + [start] == [pick, start];
    if end.MoveFailed? {
      Refinement.Then(c, s, [pick], start);
      assert [pick, start] + [Crash] == [pick, start, Crash];
      Refinement.Then(c, s, [pick, start], Crash);
    } else {
      Refinement.Then(c, s, [pick], Crash);
    }
  }

  lemma QueuePassPlace(s: State, s': State, h: Handle, ids: seq<Id>, before: map<string, Tree>,
                       after: map<string, Tree>, p: Place)
    requires At(before, s, p) && At(before, s, QueueOf(h)) && Started(s, s', h, ids)
    requires Ingesting.QueueDone(before, after, h, ids)
    ensures At(after, s', p)
  {
    NamesInUse(0, h);
    NamesApart(p, QueueOf(h));
    NamesApart(p, WorkingOf(h));
    hide NameOf, TreeIn, Decimal, GitWork.QueueTree, Watching.WorkingTree;
    if p == QueueOf(h) || p == WorkingOf(h) {
      PrintedIn(ids);
      hide Ingesting.Printed;
    } else {
      Frame(before, after, s, s', p);
    }
  }

  lemma PrintedIn(ids: seq<Id>)
    ensures forall id: Id :: Text(Decimal(id)) in Ingesting.Printed(ids) <==> id in ids
  {
    hide Decimal;
    forall id: Id ensures Text(Decimal(id)) in Ingesting.Printed(ids) <==> id in ids {
      var keys := Ingesting.Printed(ids);
      if id in ids {
        var i :| 0 <= i < |ids| && ids[i] == id;
        assert keys[i] == Text(Decimal(id));
      }
      if Text(Decimal(id)) in keys {
        var i :| 0 <= i < |keys| && keys[i] == Text(Decimal(id));
        IdTextsDiffer(ids[i], id);
      }
    }
  }
}
