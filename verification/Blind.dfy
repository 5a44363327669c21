/** What a failed look-up in "seen by watchcat" does: it counts as "not seen", so a series that is
    already under way is queued again. Each property of the front that needs the look-ups holds
    exactly when none of a seen series can fail. */
module Blind {
  import opened Basics
  import opened Protocol
  import opened Reach
  import Intake
  import Guarantees

  // ---- a series that enters twice ----

  ghost predicate EntersOnce(c: Config) {
    forall run, id :: Legal(c, Init(c), run) ==> Run(c, Init(c), run).front.entered[id] <= 1
  }

  /** The series is on its way to a git worker for the second time. */
  lemma ReachTwice(c: Config, id: Id) returns (run: seq<Action>, f: Intake.Front)
    requires c.lookupsFail && c.patches(id) != []
    ensures Legal(c, Init(c), run) && f == Run(c, Init(c), run).front
    ensures f.git == Intake.Init(c).git && f.onWorker == map[] && id in f.awaiting
    ensures f.entered[id] == 2 && f.spawned[id] == 2
  {
    Start(c, id);
    hide Legal, Run;
    run, f := BringToPool(c, [], id);
    run, f := BringToPool(c, run, id);
  }

  lemma EntersOnceIffSighted(c: Config, id: Id)
    requires c.patches(id) != []
    ensures EntersOnce(c) <==> Sighted(c)
  {
    hide Legal, Run, Intake.Inv;
    if Sighted(c) {
      forall run, x | Legal(c, Init(c), run) ensures Run(c, Init(c), run).front.entered[x] <= 1 {
        ReachedFront(c, run);
        Intake.SeriesFacts(c, Run(c, Init(c), run).front, 0, x);
      }
    } else {
      var run, f := ReachTwice(c, id);
      assert Run(c, Init(c), run).front.entered[id] > 1;
    }
  }

  // ---- a move that misses its key ----

  ghost predicate MovesHit(f: Intake.Front) {
    forall w :: 0 <= w < |f.git| && f.git[w].Clear? ==> f.git[w].id in f.awaiting
  }

  /** The first task of the series ends in "git failures"; the second gets past the wait, and its
      move finds nothing: the database tries it again forever. */
  lemma SecondTaskMisses(c: Config, id: Id) returns (run: seq<Action>)
    requires c.lookupsFail && c.workers > 0 && c.patches(id) != []
    ensures Legal(c, Init(c), run) && !MovesHit(Run(c, Init(c), run).front)
  {
    hide Legal, Run;
    var f;
    run, f := ReachTwice(c, id);
    run, f := TakeAtFirst(c, run, id);
    run, f := EndsInFailures(c, run, id);
    run, f := Walk(c, run, Intake.GitStart(0, id));
    run, f := Walk(c, run, Intake.GitClear(0));
    assert f.git[0] == Intake.Clear(id) && id !in f.awaiting;
  }

  /** The first worker fails before the remotes. */
  lemma EndsInFailures(c: Config, before: seq<Action>, id: Id) returns (run: seq<Action>, f: Intake.Front)
    requires Legal(c, Init(c), before)
    requires var f0 := Run(c, Init(c), before).front;
             |f0.git| > 0 && f0.git[0] == Intake.Prep(id) && (0, id) in f0.onWorker
    ensures Legal(c, Init(c), run) && f == Run(c, Init(c), run).front
    ensures var f0 := Run(c, Init(c), before).front;
            && f.git == f0.git[0 := Intake.Idle] && f.onWorker == f0.onWorker - {(0, id)}
            && f.awaiting == f0.awaiting && f.spawned == f0.spawned
  {
    hide Legal, Run;
    run, f := Walk(c, before, Intake.GitFail(0));
    run, f := Walk(c, run, Intake.GitFailMove(0));
  }

  lemma MovesHitIffSighted(c: Config, id: Id)
    requires c.workers > 0 && c.patches(id) != []
    ensures (forall run :: Legal(c, Init(c), run) ==> MovesHit(Run(c, Init(c), run).front)) <==> Sighted(c)
  {
    hide Legal, Run;
    if Sighted(c) {
      forall run | Legal(c, Init(c), run) ensures MovesHit(Run(c, Init(c), run).front) {
        Guarantees.MovesFindTheirKey(c, run);
      }
    } else {
      var run := SecondTaskMisses(c, id);
    }
  }

  // ---- two threads on one series ----

  ghost predicate OneThreadEach(f: Intake.Front) {
    forall w, v :: 0 <= w < v < |f.git| && f.git[w].Works() && f.git[v].Works() ==> f.git[w].id != f.git[v].id
  }

  lemma TwoThreadsWork(c: Config, id: Id) returns (run: seq<Action>)
    requires c.lookupsFail && c.workers > 1 && c.patches(id) != []
    ensures Legal(c, Init(c), run) && !OneThreadEach(Run(c, Init(c), run).front)
  {
    hide Legal, Run;
    var f;
    run, f := ReachWork(c, id);
    run, f := BringToPool(c, run, id);
    run, f := Walk(c, run, Intake.GitStart(1, id));
    run, f := Walk(c, run, Intake.GitClear(1));
    run, f := Walk(c, run, Intake.GitTake(1));
    assert f.git[0].Works() && f.git[1].Works() && f.git[0].id == f.git[1].id;
  }

  lemma OneThreadEachIffSighted(c: Config, id: Id)
    requires c.workers > 1 && c.patches(id) != []
    ensures (forall run :: Legal(c, Init(c), run) ==> OneThreadEach(Run(c, Init(c), run).front)) <==> Sighted(c)
  {
    hide Legal, Run;
    if Sighted(c) {
      forall run | Legal(c, Init(c), run) ensures OneThreadEach(Run(c, Init(c), run).front) {
        Guarantees.WorkersExclusive(c, run);
      }
    } else {
      var run := TwoThreadsWork(c, id);
    }
  }

  // ---- a stage that is lost ----

  ghost predicate Forward(c: Config, f: Intake.Front, f': Intake.Front, id: Id) {
    var before, after := Intake.StageOf(f, id), Intake.StageOf(f', id);
    after == before || Guarantees.Rank(c, before) < Guarantees.Rank(c, after)
  }

  ghost predicate OnlyForward(c: Config) {
    forall run, more, id :: Legal(c, Init(c), run) && Legal(c, Run(c, Init(c), run), more) ==>
      Forward(c, Run(c, Init(c), run).front, Run(c, Run(c, Init(c), run), more).front, id)
  }

  /** A series that awaits a worker goes back to the ingest queue. */
  lemma GoesBack(c: Config, id: Id) returns (run: seq<Action>, more: seq<Action>)
    requires c.lookupsFail && c.patches(id) != []
    ensures Legal(c, Init(c), run) && Legal(c, Run(c, Init(c), run), more)
    ensures !Forward(c, Run(c, Init(c), run).front, Run(c, Run(c, Init(c), run), more).front, id)
  {
    Start(c, id);
    hide Legal, Run;
    var f, f', all;
    run, f := BringToPool(c, [], id);
    all, f' := BringQueued(c, run, id);
    more := all[|run|..];
    assert all == run + more;
    LegalSplit(c, Init(c), run, more);
  }

  lemma OnlyForwardIffSighted(c: Config, id: Id)
    requires c.patches(id) != []
    ensures OnlyForward(c) <==> Sighted(c)
  {
    hide Legal, Run, Forward;
    if Sighted(c) {
      forall run, more, x | Legal(c, Init(c), run) && Legal(c, Run(c, Init(c), run), more)
        ensures Forward(c, Run(c, Init(c), run).front, Run(c, Run(c, Init(c), run), more).front, x)
      {
        ForwardWhenSighted(c, run, more, x);
      }
    } else {
      var run, more := GoesBack(c, id);
    }
  }

  lemma ForwardWhenSighted(c: Config, run: seq<Action>, more: seq<Action>, id: Id)
    requires Sighted(c) && Legal(c, Init(c), run) && Legal(c, Run(c, Init(c), run), more)
    ensures Forward(c, Run(c, Init(c), run).front, Run(c, Run(c, Init(c), run), more).front, id)
  {
    hide Legal, Run;
    Guarantees.StagesMoveForward(c, run, more, id);
  }

  // ---- an entry that is overwritten ----

  ghost predicate NeverOverwrites(c: Config) {
    forall run, id :: Legal(c, Init(c), run) && Enabled(c, Run(c, Init(c), run), Front(Intake.CatEnqueue(id))) ==>
      id !in Run(c, Init(c), run).front.needsTesting
  }

  lemma OverwritesEntry(c: Config, id: Id) returns (run: seq<Action>)
    requires c.lookupsFail && c.patches(id) != []
    ensures Legal(c, Init(c), run) && id in Run(c, Init(c), run).front.needsTesting
    ensures Enabled(c, Run(c, Init(c), run), Front(Intake.CatEnqueue(id)))
  {
    Start(c, id);
    hide Legal, Run;
    var f;
    run, f := BringQueued(c, [], id);
    run, f := BringPassed(c, run, id);
    run, f := Walk(c, run, Intake.CatMark(id));
  }

  lemma NeverOverwritesIffSighted(c: Config, id: Id)
    requires WordHandles(c) && c.patches(id) != []
    ensures NeverOverwrites(c) <==> Sighted(c)
  {
    hide Legal, Run, Enabled;
    if Sighted(c) {
      forall run, x | Legal(c, Init(c), run) && Enabled(c, Run(c, Init(c), run), Front(Intake.CatEnqueue(x)))
        ensures x !in Run(c, Init(c), run).front.needsTesting
      {
        Guarantees.NothingInsertedTwice(c, run, Front(Intake.CatEnqueue(x)));
      }
    } else {
      var run := OverwritesEntry(c, id);
    }
  }
}
