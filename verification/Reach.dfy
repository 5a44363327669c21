/** Runs that bring the system to a given point, step by step. */
module Reach {
  import opened Basics
  import opened Protocol
  import Intake
  import Ci

  lemma OneMore(c: Config, run: seq<Action>, a: Action)
    requires Legal(c, Init(c), run) && Enabled(c, Run(c, Init(c), run), a)
    ensures Legal(c, Init(c), run + [a]) && Run(c, Init(c), run + [a]) == Apply(c, Run(c, Init(c), run), a)
  {
    var s := Run(c, Init(c), run);
    assert Legal(c, Apply(c, s, a), []);
    assert Legal(c, s, [a]) && Run(c, s, [a]) == Apply(c, s, a) by {
      assert [a][1..] == [];
    }
    RunAppend(c, Init(c), run, [a]);
  }

  lemma Walk(c: Config, run: seq<Action>, a: Intake.Action) returns (longer: seq<Action>, f: Intake.Front)
    requires Legal(c, Init(c), run) && Intake.Enabled(c, Run(c, Init(c), run).front, a)
    requires !a.GitQueue?
    ensures Legal(c, Init(c), longer) && longer == run + [Front(a)]
    ensures f == Intake.Apply(c, Run(c, Init(c), run).front, a) == Run(c, Init(c), longer).front
    ensures Run(c, Init(c), longer).ci == Run(c, Init(c), run).ci
  {
    OneMore(c, run, Front(a));
    longer := run + [Front(a)];
    f := Intake.Apply(c, Run(c, Init(c), run).front, a);
  }

  lemma WalkCi(c: Config, run: seq<Action>, a: Ci.Action) returns (longer: seq<Action>, s: Ci.Ci)
    requires Legal(c, Init(c), run) && Ci.Enabled(c, Run(c, Init(c), run).ci, a)
    ensures Legal(c, Init(c), longer)
    ensures s == Ci.Apply(c, Run(c, Init(c), run).ci, a) == Run(c, Init(c), longer).ci
    ensures Run(c, Init(c), longer).front == Run(c, Init(c), run).front
  {
    OneMore(c, run, Runner(a));
    longer := run + [Runner(a)];
    s := Ci.Apply(c, Run(c, Init(c), run).ci, a);
  }

  /** The run goes on without a crash. */
  ghost predicate Continues(before: seq<Action>, run: seq<Action>) {
    before <= run && forall i :: |before| <= i < |run| ==> run[i] != Crash
  }

  // ---- a new series on its way to the pool ----

  /** The watchcat and the ingest loop are at rest, and never saw the series or may not know it. */
  ghost predicate ReadyFor(c: Config, f: Intake.Front, id: Id) {
    f.cat == map[] && f.ingest.Resting? && (id !in f.seen || c.lookupsFail)
  }

  /** The two states differ in the series that came in, with all its traces. */
  ghost predicate CameIn(f: Intake.Front, f': Intake.Front, id: Id) {
    && f'.git == f.git && f'.onWorker == f.onWorker && f'.cat == map[]
    && id in f'.awaiting && f'.seen == f.seen + {id} && id in f'.stage && f'.stage[id].Awaiting?
    && f'.entered == f.entered + multiset{id}
  }

  /** Halfway: the series passed the filters. */
  lemma BringPassed(c: Config, before: seq<Action>, id: Id) returns (run: seq<Action>, f: Intake.Front)
    requires Legal(c, Init(c), before) && ReadyFor(c, Run(c, Init(c), before).front, id) && c.patches(id) != []
    ensures Legal(c, Init(c), run) && f == Run(c, Init(c), run).front
    ensures var f0 := Run(c, Init(c), before).front;
            && f.cat == map[id := Intake.Passed("")] && f.ingest.Resting?
            && f.git == f0.git && f.onWorker == f0.onWorker && f.seen == f0.seen
            && f.entered == f0.entered && f.spawned == f0.spawned && f.needsTesting == f0.needsTesting
    ensures Run(c, Init(c), run).ci == Run(c, Init(c), before).ci
    ensures Continues(before, run)
  {
    hide Legal, Run;
    var series := Intake.Series(id, "", c.patches(id), true, 1);
    run, f := Walk(c, before, Intake.CatList(map[id := series]));
    assert f.cat == map[id := Intake.Listed(series)];
    run, f := Walk(c, run, Intake.CatFilter(id, Intake.Answer(id !in f.seen, Some(Intake.Patch(None, "new")))));
  }

  lemma BringQueued(c: Config, before: seq<Action>, id: Id) returns (run: seq<Action>, f: Intake.Front)
    requires Legal(c, Init(c), before) && ReadyFor(c, Run(c, Init(c), before).front, id) && c.patches(id) != []
    ensures Legal(c, Init(c), run) && f == Run(c, Init(c), run).front
    ensures var f0 := Run(c, Init(c), before).front;
            && f.cat == map[] && f.ingest.Resting? && id in f.needsTesting
            && f.git == f0.git && f.onWorker == f0.onWorker && f.seen == f0.seen + {id}
            && f.entered == f0.entered + multiset{id} && f.spawned == f0.spawned
            && id in f.stage && f.stage[id].Needs?
    ensures Run(c, Init(c), run).ci == Run(c, Init(c), before).ci
    ensures Continues(before, run)
  {
    hide Legal, Run;
    run, f := BringPassed(c, before, id);
    run, f := Walk(c, run, Intake.CatMark(id));
    run, f := Walk(c, run, Intake.CatEnqueue(id));
  }

  lemma BringMoved(c: Config, before: seq<Action>, id: Id) returns (run: seq<Action>, f: Intake.Front)
    requires Legal(c, Init(c), before) && ReadyFor(c, Run(c, Init(c), before).front, id) && c.patches(id) != []
    ensures Legal(c, Init(c), run) && f == Run(c, Init(c), run).front
    ensures CameIn(Run(c, Init(c), before).front, f, id) && f.ingest == Intake.Moved(id)
    ensures f.spawned == Run(c, Init(c), before).front.spawned
    ensures Run(c, Init(c), run).ci == Run(c, Init(c), before).ci
    ensures Continues(before, run)
  {
    hide Legal, Run;
    run, f := BringQueued(c, before, id);
    run, f := Walk(c, run, Intake.IngestPick(id));
    run, f := Walk(c, run, Intake.IngestMove);
  }

  lemma BringToPool(c: Config, before: seq<Action>, id: Id) returns (run: seq<Action>, f: Intake.Front)
    requires Legal(c, Init(c), before) && ReadyFor(c, Run(c, Init(c), before).front, id) && c.patches(id) != []
    ensures Legal(c, Init(c), run) && f == Run(c, Init(c), run).front
    ensures CameIn(Run(c, Init(c), before).front, f, id) && f.ingest.Resting?
    ensures f.spawned == Run(c, Init(c), before).front.spawned + multiset{id}
    ensures Run(c, Init(c), run).ci == Run(c, Init(c), before).ci
    ensures Continues(before, run)
  {
    hide Legal, Run;
    run, f := BringMoved(c, before, id);
    run, f := Walk(c, run, Intake.IngestSpawn);
  }

  lemma Start(c: Config, id: Id)
    ensures Legal(c, Init(c), []) && Run(c, Init(c), []) == Init(c) && ReadyFor(c, Init(c).front, id)
  {
  }

  // ---- at the first worker ----

  /** The first worker is inside `do_work`, and nothing else was ever seen. */
  lemma ReachWork(c: Config, id: Id) returns (run: seq<Action>, f: Intake.Front)
    requires c.workers > 0 && c.patches(id) != []
    ensures Legal(c, Init(c), run) && f == Run(c, Init(c), run).front && Continues([], run)
    ensures f.git == Intake.Init(c).git[0 := Intake.Prep(id)] && f.onWorker.Keys == {(0, id)}
    ensures f.cat == map[] && f.ingest.Resting? && f.seen == {id}
    ensures Run(c, Init(c), run).ci == Ci.Init(c)
  {
    Start(c, id);
    hide Legal, Run;
    run, f := BringToPool(c, [], id);
    run, f := TakeAtFirst(c, run, id);
  }

  /** A task starts at the first worker and gets past the wait. */
  lemma StartAtFirst(c: Config, before: seq<Action>, id: Id) returns (run: seq<Action>, f: Intake.Front)
    requires Legal(c, Init(c), before)
    requires var f0 := Run(c, Init(c), before).front;
             f0.git == Intake.Init(c).git && c.workers > 0 && f0.onWorker == map[] && id in f0.spawned
    ensures Legal(c, Init(c), run) && f == Run(c, Init(c), run).front && Continues(before, run)
    ensures var f0 := Run(c, Init(c), before).front;
            f == f0.(git := f0.git[0 := Intake.Clear(id)], spawned := f0.spawned - multiset{id})
    ensures Run(c, Init(c), run).ci == Run(c, Init(c), before).ci
  {
    hide Legal, Run;
    run, f := Walk(c, before, Intake.GitStart(0, id));
    run, f := Walk(c, run, Intake.GitClear(0));
  }

  /** The first worker takes a series out of the pool. */
  lemma TakeAtFirst(c: Config, before: seq<Action>, id: Id) returns (run: seq<Action>, f: Intake.Front)
    requires Legal(c, Init(c), before)
    requires var f0 := Run(c, Init(c), before).front;
             f0.git == Intake.Init(c).git && c.workers > 0 && f0.onWorker == map[] && id in f0.spawned &&
                 id in f0.awaiting
    ensures Legal(c, Init(c), run) && f == Run(c, Init(c), run).front && Continues(before, run)
    ensures var f0 := Run(c, Init(c), before).front;
            && f.git == f0.git[0 := Intake.Prep(id)] && f.onWorker.Keys == {(0, id)}
            && f.cat == f0.cat && f.ingest == f0.ingest && f.seen == f0.seen
            && f.awaiting == f0.awaiting - {id} && f.spawned == f0.spawned - multiset{id}
    ensures Run(c, Init(c), run).ci == Run(c, Init(c), before).ci
  {
    hide Legal, Run;
    run, f := StartAtFirst(c, before, id);
    run, f := Walk(c, run, Intake.GitTake(0));
  }

  // ---- from remote to remote ----

  /** The first worker is about to push series `id` to remote `j`; no runner is moving a series. */
  ghost predicate AtRemote(c: Config, s: State, id: Id, j: nat) {
    && |s.front.git| == c.workers > 0 && s.front.git[0] == Intake.Push(id, j)
    && s.ci.jobs == seq(|c.runners|, _ => Ci.JobIdle)
    && j <= |c.remotes|
  }

  /** Any series with patches can be brought as far as the first remote. */
  lemma ReachFirstRemote(c: Config, id: Id) returns (run: seq<Action>)
    requires c.workers > 0 && c.patches(id) != []
    ensures Legal(c, Init(c), run) && AtRemote(c, Run(c, Init(c), run), id, 0)
  {
    hide Legal, Run;
    var f;
    run, f := ReachWork(c, id);
    run, f := Walk(c, run, Intake.GitReady(0));
  }

  lemma PushAndQueue(c: Config, id: Id, j: nat, before: seq<Action>) returns (run: seq<Action>)
    requires Legal(c, Init(c), before) && AtRemote(c, Run(c, Init(c), before), id, j) && j < |c.remotes|
    ensures Legal(c, Init(c), run) && AtRemote(c, Run(c, Init(c), run), id, j + 1)
    ensures Run(c, Init(c), run).ci == Ci.Arrive(Run(c, Init(c), before).ci, (c.remotes[j], id))
  {
    hide Legal, Run;
    var f;
    run, f := Walk(c, before, Intake.GitPush(0));
    OneMore(c, run, Front(Intake.GitQueue(0)));
    run := run + [Front(Intake.GitQueue(0))];
  }

  /** The queues of the remotes `from` up to `to` hold the series. */
  ghost predicate QueuedFrom(c: Config, s: State, id: Id, from: nat, to: nat) {
    to <= |c.remotes| && forall i :: from <= i < to ==> (c.remotes[i], id) in s.ci.queue
  }

  lemma {:induction false} PushOn(c: Config, id: Id, i: nat, j: nat, before: seq<Action>) returns (run: seq<Action>)
    requires Legal(c, Init(c), before) && AtRemote(c, Run(c, Init(c), before), id, i) && i <= j <= |c.remotes|
    ensures Legal(c, Init(c), run) && AtRemote(c, Run(c, Init(c), run), id, j)
    ensures QueuedFrom(c, Run(c, Init(c), run), id, i, j)
    ensures Run(c, Init(c), before).ci.queue <= Run(c, Init(c), run).ci.queue
    ensures Run(c, Init(c), run).ci.reported == Run(c, Init(c), before).ci.reported
    decreases j - i
  {
    hide Legal, Run, AtRemote;
    if i == j {
      run := before;
    } else {
      run := PushAndQueue(c, id, i, before);
      run := PushOn(c, id, i + 1, j, run);
    }
  }

  lemma ReachRemote(c: Config, id: Id, j: nat) returns (run: seq<Action>)
    requires c.workers > 0 && c.patches(id) != [] && j <= |c.remotes|
    ensures Legal(c, Init(c), run) && AtRemote(c, Run(c, Init(c), run), id, j)
    ensures QueuedFrom(c, Run(c, Init(c), run), id, 0, j)
  {
    hide Legal, Run, AtRemote;
    run := ReachFirstRemote(c, id);
    run := PushOn(c, id, 0, j, run);
  }

  // ---- at a runner ----

  const JOB := RunnerResult("job", Completed, Success, None, None)

  /** Runner `k` takes the series, and its new completion watcher reports a job. */
  lemma TakeAndReport(c: Config, id: Id, j: nat, k: nat, before: seq<Action>) returns (run: seq<Action>)
    requires Legal(c, Init(c), before) && AtRemote(c, Run(c, Init(c), before), id, j)
    requires k < |c.runners| && (c.runners[k], id) in Run(c, Init(c), before).ci.queue
    ensures Legal(c, Init(c), run) && AtRemote(c, Run(c, Init(c), run), id, j)
    ensures Run(c, Init(c), run).ci.reported
            == Run(c, Init(c), before).ci.reported + multiset{(c.runners[k], id, JOB.name)}
  {
    hide Legal, Run;
    var s;
    run, s := WalkCi(c, before, Ci.JobPick(k, id));
    run, s := WalkCi(c, run, Ci.JobStart(k));
    run, s := WalkCi(c, run, Ci.JobMove(k));
    run, s := WalkCi(c, run, Ci.JobSpawn(k));
    assert s.jobs == seq(|c.runners|, _ => Ci.JobIdle);
    var t := |s.watchers| - 1;
    assert Ci.FinishedOf([JOB]) == [JOB];
    run, s := WalkCi(c, run, Ci.Poll(t, [JOB]));
    run, s := WalkCi(c, run, Ci.Report(t));
  }
}
