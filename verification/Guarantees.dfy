/** What the pipeline guarantees in every state it can reach from an empty database,
    whatever the actors' order, the outside answers, and however often the process dies. */
module Guarantees {
  import opened Basics
  import opened Codec
  import opened Protocol
  import Intake
  import Ci
  import Outbox

  // ---- provenance ----

  /** The check reports a finished result of a run at handle `h`, for a series whose branch was
      pushed, that was queued there, and that passed the watchcat's filters. */
  ghost predicate Caused(c: Config, s: State, check: Outbox.Check, id: Id, h: Handle, r: RunnerResult) {
    && (h, id, r) in s.ci.finished && Ci.Finished(r)
    && c.patches(id) != [] && check.patch == c.patches(id)[|c.patches(id)| - 1]
    && check.context == CheckContext(h, r.name)
    && check.state == r.outcome && check.target == r.url && check.description == r.description
    && (h, id) in s.front.queued
    && (h, id) in s.front.pushed
    && id in s.front.passed
  }

  lemma ArrivedFacts(c: Config, s: State, h: Handle, id: Id)
    requires Base(c, s) && (h, id) in s.ci.arrived
    ensures (h, id) in s.front.queued && (h, id) in s.front.pushed
    ensures id in s.front.seen && id in s.front.passed && c.patches(id) != []
  {
    hide Ci.Sound, Outbox.Sound, Intake.RootedCat, Intake.RootedTrees, Intake.RootedTasks, Intake.RootedThreads;
  }

  /** A result handed to the dispatcher was polled at a series that had arrived. */
  lemma InboxFacts(c: Config, s: State, h: Handle, id: Id, r: RunnerResult)
    requires Base(c, s) && (h, id, r) in s.out.inbox
    ensures (h, id, r) in s.ci.finished && Ci.Finished(r) && (h, id) in s.ci.arrived
  {
    hide Intake.Rooted, Outbox.Sound, Ci.TreesArrived, Ci.JobsArrived, Ci.WatchersSound;
  }

  lemma CheckExplained(c: Config, s: State, i: nat) returns (h: Handle, id: Id, r: RunnerResult)
    requires Base(c, s) && i < |s.out.checks| && s.out.checks[i].poster.Snowpatch?
    ensures (h, id, r) in s.out.inbox && Outbox.Explains(c, (h, id, r), s.out.checks[i])
  {
    hide Intake.Rooted, Ci.Sound, Coupled, Outbox.Explains, Outbox.TreeSound, Outbox.PostedOnce, Outbox.PcSound;
    var x :| x in s.out.inbox && Outbox.Explains(c, x, s.out.checks[i]);
    h, id, r := x.0, x.1, x.2;
  }

  lemma EveryCheckHasACause(c: Config, run: seq<Action>, i: nat)
    requires WordHandles(c) && Legal(c, Init(c), run)
    requires i < |Run(c, Init(c), run).out.checks| && Run(c, Init(c), run).out.checks[i].poster.Snowpatch?
    ensures var s := Run(c, Init(c), run);
            var check := s.out.checks[i];
            exists h, r :: Caused(c, s, check, check.poster.series, h, r)
  {
    hide Legal, Run, Base, CheckContext;
    ReachedBase(c, run);
    var s := Run(c, Init(c), run);
    var h, id, r := CheckExplained(c, s, i);
    InboxFacts(c, s, h, id, r);
    ArrivedFacts(c, s, h, id);
    assert Caused(c, s, s.out.checks[i], id, h, r);
  }

  // ---- the dispatcher ----

  /** At-most-once posting over an at-least-once queue. */
  lemma NeverPostedTwice(c: Config, run: seq<Action>)
    requires WordHandles(c) && Legal(c, Init(c), run)
    ensures Outbox.PostedOnce(Run(c, Init(c), run).out.checks)
  {
    hide Intake.Rooted;
    ReachedBase(c, run);
  }

  /** No key handed over is ever lost; and with a token every key that ever left the tree, handed
      over again or not, has a check with its context on the server. */
  lemma RemovedMeansReported(c: Config, run: seq<Action>, h: Handle, id: Id, n: string)
    requires WordHandles(c) && Legal(c, Init(c), run)
    requires (h, id, n) in Run(c, Init(c), run).ci.reported
    ensures var s, key := Run(c, Init(c), run), FormatKey(h, id, n);
            && (key in s.out.dispatch || key in s.out.handled)
            && (c.token && key in s.out.handled ==> Outbox.OnServer(c, s.out.checks, key))
  {
    hide Intake.Rooted;
    ReachedBase(c, run);
    var s, key := Run(c, Init(c), run), FormatKey(h, id, n);
    assert key in s.out.received.Keys;
    assert Outbox.Conserved(s.out);
  }

  /** The dispatcher never meets a malformed key or a series without patches, and the watchcat
      never queues one. */
  lemma ErrorBranchesUnreachable(c: Config, run: seq<Action>)
    requires WordHandles(c) && Legal(c, Init(c), run)
    ensures var s := Run(c, Init(c), run);
            && (forall key <- s.out.dispatch :: Outbox.Sendable(c, key))
            && (s.out.pc.HoldsKey() ==> Outbox.Sendable(c, s.out.pc.key))
            && (forall id <- s.front.cat :: s.front.cat[id].Marked? ==> c.patches(id) != [])
  {
    hide Base, Outbox.Sendable;
    ReachedBase(c, run);
    var s := Run(c, Init(c), run);
    KeysSendable(c, s);
    forall id | id in s.front.cat && s.front.cat[id].Marked? ensures c.patches(id) != [] {
      MarkedHasPatches(c, s, id);
    }
  }

  lemma MarkedHasPatches(c: Config, s: State, id: Id)
    requires Base(c, s) && id in s.front.cat && s.front.cat[id].Marked?
    ensures c.patches(id) != []
  {
    hide Ci.Sound, Outbox.Sound, Coupled, Intake.RootedTrees, Intake.RootedTasks, Intake.RootedThreads;
    hide Intake.RootedQueues;
  }

  lemma KeysSendable(c: Config, s: State)
    requires Base(c, s)
    ensures forall key <- s.out.dispatch :: Outbox.Sendable(c, key)
    ensures s.out.pc.HoldsKey() ==> Outbox.Sendable(c, s.out.pc.key)
  {
    hide Intake.Rooted, ParseKey, FormatKey;
    hide Ci.Sound, Coupled, Outbox.Explained, Outbox.PostedOnce, Outbox.HandledSound;
    forall key, r | Outbox.KeySound(key, r, s.out.inbox) ensures Outbox.Sendable(c, key) {
      var q := ParseKey(key).value;
      InboxFacts(c, s, q.handle, q.series, r);
      ArrivedFacts(c, s, q.handle, q.series);
    }
  }

  /** When no two remotes share a handle, a job of a series is handed over at most once, what is
      in the tree is what was handed over, and what was removed had been sent unchanged. */
  lemma ResultsSentUnchanged(c: Config, run: seq<Action>, h: Handle, id: Id, n: string)
    requires Sighted(c) && WordHandles(c) && Distinct(c.remotes) && Legal(c, Init(c), run)
    ensures var s, key := Run(c, Init(c), run), FormatKey(h, id, n);
            && s.ci.reported[(h, id, n)] <= 1
            && !(key in s.out.dispatch && key in s.out.handled)
            && (key in s.out.dispatch ==> key in s.out.received && s.out.dispatch[key] == s.out.received[key])
            && (key in s.out.handled ==>
                  key in s.out.received && key in s.out.sent && s.out.sent[key] == s.out.received[key])
  {
    hide Intake.Inv;
    Reached(c, run);
    assert Ci.Unique(c, Run(c, Init(c), run).ci);
    assert Outbox.Faithful(Run(c, Init(c), run).out);
  }

  // ---- conservation ----

  datatype Place = InNeeds | InAwaiting | InWorker(w: nat) | InFailures | ThroughGit

  predicate At(f: Intake.Front, id: Id, place: Place) {
    match place
    case InNeeds => id in f.needsTesting
    case InAwaiting => id in f.awaiting
    case InWorker(w) => (w, id) in f.onWorker
    case InFailures => id in f.failures
    case ThroughGit => id in f.stage && f.stage[id].GitDone?
  }

  function ValueAt(f: Intake.Front, id: Id, place: Place): string
    requires At(f, id, place) && !place.ThroughGit?
  {
    match place
    case InNeeds => f.needsTesting[id]
    case InAwaiting => f.awaiting[id]
    case InWorker(w) => f.onWorker[(w, id)]
    case InFailures => f.failures[id]
  }

  function PlaceOf(stage: Intake.Stage): Place
    requires !stage.Seen?
  {
    match stage
    case Needs => InNeeds
    case Awaiting => InAwaiting
    case Worker(w, _) => InWorker(w)
    case GitFailed(_) => InFailures
    case GitDone => ThroughGit
  }

  lemma PlaceMatchesStage(c: Config, f: Intake.Front, id: Id, p: Place)
    requires Intake.Inv(c, f) && id in f.stage && !f.stage[id].Seen?
    ensures At(f, id, p) <==> p == PlaceOf(f.stage[id])
    ensures At(f, id, p) && !p.ThroughGit? ==> id in f.mbox && ValueAt(f, id, p) == f.mbox[id]
  {
    hide Intake.Inv;
    Intake.SeriesFacts(c, f, if p.InWorker? then p.w else 0, id);
  }

  /** A series that ever entered "needs testing" entered once and is in exactly one place. */
  lemma InExactlyOnePlace(c: Config, run: seq<Action>, id: Id)
    requires Sighted(c) && Legal(c, Init(c), run)
    requires id in Run(c, Init(c), run).front.entered
    ensures var f := Run(c, Init(c), run).front;
            && f.entered[id] == 1
            && id in f.seen
            && (exists p :: At(f, id, p) && forall q :: At(f, id, q) ==> q == p)
            && id in f.mbox
            && (forall p :: At(f, id, p) && !p.ThroughGit? ==> ValueAt(f, id, p) == f.mbox[id])
  {
    hide Intake.Inv;
    ReachedFront(c, run);
    var f := Run(c, Init(c), run).front;
    assert f.entered[id] > 0;
    Intake.SeriesFacts(c, f, 0, id);
    var p := PlaceOf(f.stage[id]);
    PlaceMatchesStage(c, f, id, p);
    forall q ensures At(f, id, q) ==> q == p && (!q.ThroughGit? ==> ValueAt(f, id, q) == f.mbox[id]) {
      PlaceMatchesStage(c, f, id, q);
    }
  }

  /** The series of an entry of any tree, those of the runners and the dispatcher included. */
  ghost predicate InSomeTree(s: State, id: Id) {
    || id in s.front.needsTesting || id in s.front.awaiting || id in s.front.failures
    || (exists w :: (w, id) in s.front.onWorker)
    || (exists h :: (h, id) in s.ci.queue || (h, id) in s.ci.working)
    || (exists key <- s.out.dispatch :: ParseKey(key).Some? && ParseKey(key).value.series == id)
  }

  /** Nothing is in any tree that the watchcat has not seen. */
  lemma EverythingWasSeen(c: Config, run: seq<Action>, id: Id)
    requires WordHandles(c) && Legal(c, Init(c), run)
    requires InSomeTree(Run(c, Init(c), run), id)
    ensures id in Run(c, Init(c), run).front.seen
  {
    ReachedBase(c, run);
    hide Legal, Run, Base, ParseKey, FormatKey;
    var s := Run(c, Init(c), run);
    FrontTreesSeen(c, s, id);
    forall key | key in s.out.dispatch && ParseKey(key).Some? && ParseKey(key).value.series == id
      ensures id in s.front.seen
    {
      KeyArrived(c, s, key);
      ArrivedFacts(c, s, ParseKey(key).value.handle, id);
    }
    forall h | (h, id) in s.ci.queue || (h, id) in s.ci.working ensures id in s.front.seen {
      RunnerTreesArrived(c, s, h, id);
      ArrivedFacts(c, s, h, id);
    }
  }

  lemma FrontTreesSeen(c: Config, s: State, id: Id)
    requires Base(c, s)
    ensures id in s.front.needsTesting || id in s.front.awaiting || id in s.front.failures ==> id in s.front.seen
    ensures forall w :: (w, id) in s.front.onWorker ==> id in s.front.seen
  {
    hide Ci.Sound, Outbox.Sound, Coupled, Intake.RootedCat, Intake.RootedTasks, Intake.RootedThreads;
    hide Intake.RootedQueues;
  }

  lemma KeyArrived(c: Config, s: State, key: string)
    requires Base(c, s) && key in s.out.dispatch
    ensures ParseKey(key).Some? && (ParseKey(key).value.handle, ParseKey(key).value.series) in s.ci.arrived
  {
    hide Intake.Rooted, Ci.TreesArrived, Ci.JobsArrived, Ci.WatchersSound, ParseKey;
    assert Outbox.KeySound(key, s.out.dispatch[key], s.out.inbox);
  }

  lemma RunnerTreesArrived(c: Config, s: State, h: Handle, id: Id)
    requires Base(c, s)
    ensures (h, id) in s.ci.queue || (h, id) in s.ci.working ==> (h, id) in s.ci.arrived
  {
    hide Intake.Rooted, Outbox.Sound, Coupled, Ci.JobsArrived, Ci.WatchersSound, Ci.FinishedSound;
  }

  /** The value a series entered with never changes, however the run goes on. */
  lemma ValueNeverChanges(c: Config, run: seq<Action>, more: seq<Action>, id: Id)
    requires Sighted(c) && Legal(c, Init(c), run) && Legal(c, Run(c, Init(c), run), more)
    requires id in Run(c, Init(c), run).front.mbox
    ensures var now, later := Run(c, Init(c), run).front, Run(c, Run(c, Init(c), run), more).front;
            id in later.mbox && later.mbox[id] == now.mbox[id]
  {
    hide Legal, Run, Intake.Inv;
    ReachedFront(c, run);
    RunKeepsValue(c, Run(c, Init(c), run), more, id);
  }

  lemma {:induction false} RunKeepsValue(c: Config, s: State, run: seq<Action>, id: Id)
    requires Intake.Inv(c, s.front) && Legal(c, s, run) && id in s.front.mbox
    ensures id in Run(c, s, run).front.mbox && Run(c, s, run).front.mbox[id] == s.front.mbox[id]
    decreases |run|
  {
    hide Intake.Inv;
    if run != [] {
      var s' := Apply(c, s, run[0]);
      StepKeepsFront(c, s, run[0]);
      StepKeepsValue(c, s, run[0], id);
      hide Enabled, Apply;
      RunKeepsValue(c, s', run[1..], id);
    }
  }

  lemma StepKeepsValue(c: Config, s: State, a: Action, id: Id)
    requires Intake.Inv(c, s.front) && Enabled(c, s, a) && id in s.front.mbox
    ensures id in Apply(c, s, a).front.mbox && Apply(c, s, a).front.mbox[id] == s.front.mbox[id]
  {
    hide Intake.Inv, Intake.Apply, Ci.Apply, Outbox.Apply, Intake.Output, Ci.Output;
    if a.Front? {
      FrontKeepsValue(c, s.front, a.front, id);
    }
  }

  lemma FrontKeepsValue(c: Config, f: Intake.Front, a: Intake.Action, id: Id)
    requires Intake.Inv(c, f) && Intake.Enabled(c, f, a) && id in f.mbox
    ensures id in Intake.Apply(c, f, a).mbox && Intake.Apply(c, f, a).mbox[id] == f.mbox[id]
  {
    hide Intake.Inv;
    if a.CatEnqueue? {
      Intake.CatFacts(c, f, a.id);
      Intake.SeriesFacts(c, f, 0, a.id);
    }
  }

  // ---- the moves and the workers ----

  /** Whatever the other actors do, a move finds its key where it was promised. */
  lemma MovesFindTheirKey(c: Config, run: seq<Action>)
    requires Sighted(c) && Legal(c, Init(c), run)
    ensures var f := Run(c, Init(c), run).front;
            && (f.ingest.Picked? ==> f.ingest.id in f.needsTesting)
            && (forall w :: 0 <= w < |f.git| && f.git[w].Clear? ==> f.git[w].id in f.awaiting)
            && (forall w :: 0 <= w < |f.git| && f.git[w].Works() ==> (w, f.git[w].id) in f.onWorker)
  {
    hide Intake.Inv;
    ReachedFront(c, run);
    var f := Run(c, Init(c), run).front;
    Intake.IngestFacts(c, f);
    forall w | 0 <= w < |f.git|
      ensures f.git[w].Clear? ==> f.git[w].id in f.awaiting
      ensures f.git[w].Works() ==> (w, f.git[w].id) in f.onWorker
    {
      Intake.ThreadFacts(c, f, w);
    }
  }

  /** A worker tree never holds two series; a thread inside `do_work` finds its own series as the
      only entry of its tree, and no two threads work on the same series. */
  lemma WorkersExclusive(c: Config, run: seq<Action>)
    requires Sighted(c) && Legal(c, Init(c), run)
    ensures var f := Run(c, Init(c), run).front;
            && (forall w, a, b :: (w, a) in f.onWorker && (w, b) in f.onWorker ==> a == b)
            && (forall w, id :: 0 <= w < |f.git| && f.git[w].Works() ==>
                  ((w, id) in f.onWorker <==> id == f.git[w].id))
            && (forall w, v :: 0 <= w < v < |f.git| && f.git[w].Works() && f.git[v].Works() ==>
                  f.git[w].id != f.git[v].id)
  {
    ReachedFront(c, run);
    var f := Run(c, Init(c), run).front;
    assert Intake.OnePerWorker(c.workers, f.onWorker);
    hide Intake.Inv;
    forall w | 0 <= w < |f.git| && f.git[w].Works()
      ensures forall id :: (w, id) in f.onWorker <==> id == f.git[w].id
      ensures f.git[w].id in f.stage && f.stage[f.git[w].id].Worker? && f.stage[f.git[w].id].w == w
    {
      Intake.ThreadFacts(c, f, w);
    }
  }

  // ---- consumers ----

  /** A key leaves "needs testing", a runner queue or "needs dispatch" only by the removal that the
      consumer of that tree makes of the key it was given; a crash removes nothing. */
  lemma OnlyConsumersRemove(c: Config, s: State, a: Action, x: (Handle, Id), key: string)
    requires Enabled(c, s, a)
    ensures var s' := Apply(c, s, a);
            && (x.1 in s.front.needsTesting && x.1 !in s'.front.needsTesting ==>
                  a == Front(Intake.IngestMove) && s.front.ingest == Intake.Picked(x.1))
            && (x in s.ci.queue && x !in s'.ci.queue ==>
                  a.Runner? && a.ci.JobMove? && c.runners[a.ci.k] == x.0 && s.ci.jobs[a.ci.k] == Ci.Moving(x.1))
            && (key in s.out.dispatch && key !in s'.out.dispatch ==>
                  a == Dispatcher(Outbox.Remove) && s.out.pc.drop[0] == key)
  {
    match a
    case Front(b) =>
      FrontRemoves(c, s.front, b, x.1);
      hide Intake.Enabled, Intake.Apply;
    case Runner(b) =>
      RunnerRemoves(c, s.ci, b, x);
      hide Ci.Enabled, Ci.Apply;
    case Dispatcher(b) =>
    case Crash =>
  }

  lemma FrontRemoves(c: Config, f: Intake.Front, b: Intake.Action, id: Id)
    requires Intake.Enabled(c, f, b)
    ensures id in f.needsTesting && id !in Intake.Apply(c, f, b).needsTesting ==>
              b == Intake.IngestMove && f.ingest == Intake.Picked(id)
  {
    hide Intake.Wanted;
  }

  lemma RunnerRemoves(c: Config, s: Ci.Ci, b: Ci.Action, x: (Handle, Id))
    requires Ci.Enabled(c, s, b)
    ensures x in s.queue && x !in Ci.Apply(c, s, b).queue ==>
              b.JobMove? && b.k < |s.jobs| == |c.runners| && c.runners[b.k] == x.0 && s.jobs[b.k] == Ci.Moving(x.1)
  {
  }

  /** A key is never inserted into one of these trees while it is there: not into "needs testing",
      and with distinct remotes neither into a runner queue nor into "needs dispatch". */
  lemma NothingInsertedTwice(c: Config, run: seq<Action>, a: Action)
    requires Sighted(c) && WordHandles(c) && Legal(c, Init(c), run) && Enabled(c, Run(c, Init(c), run), a)
    ensures var s := Run(c, Init(c), run);
            && (a.Front? && a.front.CatEnqueue? ==> a.front.id !in s.front.needsTesting)
            && (Distinct(c.remotes) && a.Front? && Intake.Output(c, s.front, a.front).Some? ==>
                  Intake.Output(c, s.front, a.front).value !in s.ci.queue)
            && (Distinct(c.remotes) && a.Runner? && Ci.Output(c, s.ci, a.ci).Some? ==>
                  var (h, id, r) := Ci.Output(c, s.ci, a.ci).value; FormatKey(h, id, r.name) !in s.out.dispatch)
  {
    hide Legal, Run, Inv, Unique, Intake.Inv, Intake.Enabled, Ci.Enabled, Intake.Apply, Ci.Apply;
    Reached(c, run);
    ReachedFront(c, run);
    var s := Run(c, Init(c), run);
    match a
    case Front(b) => FrontInsertsNew(c, s, b);
    case Runner(b) =>
      if Distinct(c.remotes) && Ci.Output(c, s.ci, b).Some? {
        ReportInsertsNew(c, s, b);
      }
    case _ =>
  }

  lemma FrontInsertsNew(c: Config, s: State, b: Intake.Action)
    requires Intake.Inv(c, s.front) && Enabled(c, s, Front(b)) && (Distinct(c.remotes) ==> Unique(c, s))
    ensures b.CatEnqueue? ==> b.id !in s.front.needsTesting
    ensures Distinct(c.remotes) && Intake.Output(c, s.front, b).Some? ==>
              Intake.Output(c, s.front, b).value !in s.ci.queue
  {
    assert Distinct(c.remotes) ==> s.front.queued == s.ci.arrived && Ci.CiTrees(s.ci.queue, s.ci.working, s.ci.stage)
                                   && Ci.CiArrived(s.ci.arrived, s.ci.stage);
    FrontOutput(c, s.front, b);
    Intake.StepKeepsInv(c, s.front, b);
    hide Unique, Intake.Inv;
    if b.CatEnqueue? {
      Intake.CatFacts(c, s.front, b.id);
      Intake.SeriesFacts(c, s.front, 0, b.id);
    }
    if Distinct(c.remotes) && Intake.Output(c, s.front, b).Some? {
      var x := Intake.Output(c, s.front, b).value;
      QueuedAtMostOnce(c, Intake.Apply(c, s.front, b), x.0, x.1);
      hide Intake.Apply, Intake.Output;
      assert s.ci.arrived[x] == 0;
    }
  }

  lemma ReportInsertsNew(c: Config, s: State, b: Ci.Action)
    requires Unique(c, s) && Enabled(c, s, Runner(b)) && Ci.Output(c, s.ci, b).Some?
    ensures var (h, id, r) := Ci.Output(c, s.ci, b).value; FormatKey(h, id, r.name) !in s.out.dispatch
  {
    hide Intake.Inv, Outbox.Sound, Ci.Unique, FormatKey, ParseKey;
    Ci.UniqueStep(c, s.ci, b);
    ReportFacts(c, s, b);
    hide Ci.Apply, Ci.Enabled;
    var (h, id, r) := Ci.Output(c, s.ci, b).value;
    hide Ci.Output;
    KeyRoundTrip(h, id, r.name);
    assert FormatKey(h, id, r.name) in s.out.dispatch ==> FormatKey(h, id, r.name) in s.out.received;
  }

  // ---- stages ----

  function Rank(c: Config, stage: Option<Intake.Stage>): nat {
    match stage
    case None => 0
    case Some(Seen) => 1
    case Some(Needs) => 2
    case Some(Awaiting) => 3
    case Some(Worker(_, done)) => 4 + done
    case _ => 5 + |c.remotes|
  }

  /** Whatever was done so far, one more step of any actor is at most one step of the per-series
      machine, for every series. */
  lemma EveryStepSimulates(c: Config, run: seq<Action>, a: Action, id: Id)
    requires Sighted(c) && Legal(c, Init(c), run) && Enabled(c, Run(c, Init(c), run), a)
    ensures var s := Run(c, Init(c), run);
            var before, after := Intake.StageOf(s.front, id), Intake.StageOf(Apply(c, s, a).front, id);
            after == before || Intake.StageStep(before, after, |c.remotes|)
  {
    hide Legal, Run, Intake.Inv, Enabled, Apply, Intake.StageStep;
    ReachedFront(c, run);
    StepSimulates(c, Run(c, Init(c), run), a, id);
  }

  lemma StepSimulates(c: Config, s: State, a: Action, id: Id)
    requires Intake.Inv(c, s.front) && Enabled(c, s, a)
    ensures var before, after := Intake.StageOf(s.front, id), Intake.StageOf(Apply(c, s, a).front, id);
            after == before || Intake.StageStep(before, after, |c.remotes|)
  {
    hide Intake.Inv, Intake.StageStep, Intake.Apply, Ci.Apply, Outbox.Apply;
    if a.Front? {
      FrontStepSimulates(c, s.front, a.front, id);
    }
  }

  lemma FrontStepSimulates(c: Config, f: Intake.Front, a: Intake.Action, id: Id)
    requires Intake.Inv(c, f) && Intake.Enabled(c, f, a)
    ensures var before, after := Intake.StageOf(f, id), Intake.StageOf(Intake.Apply(c, f, a), id);
            after == before || Intake.StageStep(before, after, |c.remotes|)
  {
    hide Intake.Inv, Intake.StageStep, Intake.StageOf;
    match a
    case CatMark(_) => ScanMoves(c, f, a, id);
    case CatEnqueue(_) => ScanMoves(c, f, a, id);
    case IngestMove => ScanMoves(c, f, a, id);
    case GitTake(_) => GitMoves(c, f, a, id);
    case GitQueue(_) => GitMoves(c, f, a, id);
    case GitRemove(_) => GitMoves(c, f, a, id);
    case GitFailMove(_) => GitMoves(c, f, a, id);
    case CatList(_) => ScanStays(c, f, a, id);
    case CatFilter(_, _) => ScanStays(c, f, a, id);
    case IngestPick(_) => ScanStays(c, f, a, id);
    case IngestSpawn => ScanStays(c, f, a, id);
    case _ => GitStays(c, f, a, id);
  }

  lemma ScanStays(c: Config, f: Intake.Front, a: Intake.Action, id: Id)
    requires a.CatList? || a.CatFilter? || a.IngestPick? || a.IngestSpawn?
    requires Intake.Enabled(c, f, a)
    ensures Intake.StageOf(Intake.Apply(c, f, a), id) == Intake.StageOf(f, id)
  {
  }

  lemma GitStays(c: Config, f: Intake.Front, a: Intake.Action, id: Id)
    requires a.GitStart? || a.GitClear? || a.GitReady? || a.GitPush? || a.GitOk? || a.GitFail? || a.GitBoned?
    requires Intake.Enabled(c, f, a)
    ensures Intake.StageOf(Intake.Apply(c, f, a), id) == Intake.StageOf(f, id)
  {
  }

  lemma ScanMoves(c: Config, f: Intake.Front, a: Intake.Action, id: Id)
    requires a.CatMark? || a.CatEnqueue? || a.IngestMove?
    requires Intake.Inv(c, f) && Intake.Enabled(c, f, a)
    ensures var before, after := Intake.StageOf(f, id), Intake.StageOf(Intake.Apply(c, f, a), id);
            after == before || Intake.StageStep(before, after, |c.remotes|)
  {
    hide Intake.Inv;
    match a
    case CatMark(i) => Intake.CatFacts(c, f, i);
    case CatEnqueue(i) => Intake.CatFacts(c, f, i);
    case IngestMove => Intake.SeriesFacts(c, f, 0, f.ingest.id);
  }

  lemma GitMoves(c: Config, f: Intake.Front, a: Intake.Action, id: Id)
    requires a.GitTake? || a.GitQueue? || a.GitRemove? || a.GitFailMove?
    requires Intake.Inv(c, f) && Intake.Enabled(c, f, a)
    ensures var before, after := Intake.StageOf(f, id), Intake.StageOf(Intake.Apply(c, f, a), id);
            after == before || Intake.StageStep(before, after, |c.remotes|)
  {
    hide Intake.Inv;
    if a.GitTake? {
      Intake.SeriesFacts(c, f, a.w, f.git[a.w].id);
    } else {
      Intake.ThreadFacts(c, f, a.w);
    }
  }

  /** Over any stretch of a run a series stays at its stage or moves to a later one. */
  lemma StagesMoveForward(c: Config, run: seq<Action>, more: seq<Action>, id: Id)
    requires Sighted(c) && Legal(c, Init(c), run) && Legal(c, Run(c, Init(c), run), more)
    ensures var s := Run(c, Init(c), run);
            var before, after := Intake.StageOf(s.front, id), Intake.StageOf(Run(c, s, more).front, id);
            after == before || Rank(c, before) < Rank(c, after)
  {
    hide Legal, Run, Intake.Inv;
    ReachedFront(c, run);
    RunRaisesRank(c, Run(c, Init(c), run), more, id);
  }

  lemma {:induction false} RunRaisesRank(c: Config, s: State, run: seq<Action>, id: Id)
    requires Intake.Inv(c, s.front) && Legal(c, s, run)
    ensures var before, after := Intake.StageOf(s.front, id), Intake.StageOf(Run(c, s, run).front, id);
            after == before || Rank(c, before) < Rank(c, after)
    decreases |run|
  {
    hide Intake.Inv, Rank;
    if run != [] {
      StepKeepsFront(c, s, run[0]);
      RankGrows(c, s, run[0], id);
      hide Enabled, Apply;
      RunRaisesRank(c, Apply(c, s, run[0]), run[1..], id);
    }
  }

  lemma RankGrows(c: Config, s: State, a: Action, id: Id)
    requires Intake.Inv(c, s.front) && Enabled(c, s, a)
    ensures var before, after := Intake.StageOf(s.front, id), Intake.StageOf(Apply(c, s, a).front, id);
            after == before || Rank(c, before) < Rank(c, after)
  {
    hide Intake.Inv, Apply, Enabled;
    StepSimulates(c, s, a, id);
    Intake.QueueFacts(c, s.front, id);
  }

  /** From nowhere to queued to working to reported, and never back. */
  predicate RunnerStageStep(before: Option<Ci.CiStage>, after: Option<Ci.CiStage>) {
    match (before, after)
    case (None, Some(Queued)) => true
    case (Some(Queued), Some(Working)) => true
    case (Some(Working), Some(Reported)) => true
    case _ => false
  }

  function RunnerStageOf(s: Ci.Ci, x: (Handle, Id)): Option<Ci.CiStage> {
    if x in s.stage then Some(s.stage[x]) else None
  }

  /** When no two remotes share a handle, the same for a series at one runner; its stage is where
      the trees of that runner have it. */
  lemma EveryRunnerStepSimulates(c: Config, run: seq<Action>, a: Action, x: (Handle, Id))
    requires Sighted(c) && WordHandles(c) && Distinct(c.remotes)
    requires Legal(c, Init(c), run) && Enabled(c, Run(c, Init(c), run), a)
    ensures var s := Run(c, Init(c), run);
            var before, after := RunnerStageOf(s.ci, x), RunnerStageOf(Apply(c, s, a).ci, x);
            && (after == before || RunnerStageStep(before, after))
            && (x in s.ci.queue <==> before == Some(Ci.Queued))
            && (x in s.ci.working <==> before == Some(Ci.Working))
  {
    hide Legal, Run, Inv, Enabled, Apply;
    Reached(c, run);
    RunnerStepSimulates(c, Run(c, Init(c), run), a, x);
  }

  lemma RunnerStepSimulates(c: Config, s: State, a: Action, x: (Handle, Id))
    requires WordHandles(c) && Distinct(c.remotes) && Unique(c, s) && Enabled(c, s, a)
    ensures var before, after := RunnerStageOf(s.ci, x), RunnerStageOf(Apply(c, s, a).ci, x);
            after == before || RunnerStageStep(before, after)
  {
    StepKeepsUnique(c, s, a);
    match a
    case Front(b) =>
      FrontOutput(c, s.front, b);
      match Intake.Output(c, s.front, b) {
        case None =>
        case Some(y) =>
          QueuedAtMostOnce(c, Apply(c, s, a).front, y.0, y.1);
          assert s.ci.arrived[y] == 0;
      }
    case Runner(b) =>
      RunnerStage(c, s.ci, b, x);
    case _ =>
  }

  lemma RunnerStage(c: Config, s: Ci.Ci, a: Ci.Action, x: (Handle, Id))
    requires Ci.Unique(c, s) && Ci.Enabled(c, s, a)
    ensures var before, after := RunnerStageOf(s, x), RunnerStageOf(Ci.Apply(c, s, a), x);
            after == before || RunnerStageStep(before, after)
  {
    match a
    case Leave(t) => assert Ci.WatcherOk(s.watchers[t], s.stage, s.reported);
    case _ =>
  }

  // ---- failures and queues ----

  /** The series was queued once for each occurrence of a handle in the list, and nowhere else. */
  ghost predicate QueuedExactly(f: Intake.Front, id: Id, handles: seq<Handle>) {
    forall h :: f.queued[(h, id)] == multiset(handles)[h]
  }

  ghost predicate QueuedUpTo(c: Config, f: Intake.Front, id: Id, j: nat) {
    j <= |c.remotes| && QueuedExactly(f, id, c.remotes[..j])
  }

  /** The task of the series at thread `w` failed in step `i` of the run. */
  ghost predicate FailedIn(c: Config, run: seq<Action>, i: nat, w: nat, id: Id) {
    && i < |run| && run[i] == Front(Intake.GitFail(w))
    && Legal(c, Init(c), run[..i])
    && var git := Run(c, Init(c), run[..i]).front.git;
       w < |git| && !git[w].Idle? && git[w].id == id
  }

  /** The remotes the failing thread had served. */
  function ServedIn(c: Config, run: seq<Action>, i: nat, w: nat): nat
    requires i <= |run| && Legal(c, Init(c), run[..i]) && w < |Run(c, Init(c), run[..i]).front.git|
  {
    Intake.ServedAt(Run(c, Init(c), run[..i]).front.git[w])
  }

  /** A series in "git failures" got there by a failing task and was queued exactly at the remotes
      before the one its thread was at; a series through git exactly once per remote. */
  lemma FailureMeansNotQueued(c: Config, run: seq<Action>, id: Id)
    requires Sighted(c) && Legal(c, Init(c), run)
    ensures var f := Run(c, Init(c), run).front;
            && (id in f.failures ==>
                  exists i, w :: FailedIn(c, run, i, w, id) && QueuedUpTo(c, f, id, ServedIn(c, run, i, w)))
            && (At(f, id, ThroughGit) ==> QueuedExactly(f, id, c.remotes))
            && (|c.remotes| <= 1 && id in f.failures ==> QueuedExactly(f, id, []))
  {
    hide Intake.Inv;
    ReachedFront(c, run);
    var f := Run(c, Init(c), run).front;
    Intake.SeriesFacts(c, f, 0, id);
    Intake.QueueFacts(c, f, id);
    assert c.remotes[..|c.remotes|] == c.remotes;
    if id in f.failures {
      var i, w := FindFailure(c, Init(c), run, id);
      FailureFixesQueues(c, run, i, w, id);
      var j := Intake.RemotesDone(c.remotes, f.stage[id]);
      assert |c.remotes| <= 1 && j == 0 ==> c.remotes[..j] == [];
    }
  }

  /** The step in which the task of a failed series failed. */
  lemma {:induction false} FindFailure(c: Config, s: State, run: seq<Action>, id: Id) returns (i: nat, w: nat)
    requires Legal(c, s, run) && !Fails(s.front, id) && Fails(Run(c, s, run).front, id)
    ensures i < |run| && run[i] == Front(Intake.GitFail(w))
    ensures Legal(c, s, run[..i])
    ensures var git := Run(c, s, run[..i]).front.git; w < |git| && !git[w].Idle? && git[w].id == id
    decreases |run|
  {
    hide Fails;
    var s' := Apply(c, s, run[0]);
    assert run == [run[0]] + run[1..];
    if Fails(s'.front, id) {
      w := OnlyFailFails(c, s, run[0], id);
      i := 0;
      assert run[..0] == [];
    } else {
      i, w := FindFailure(c, s', run[1..], id);
      i := i + 1;
      assert run[..i][0] == run[0] && run[..i][1..] == run[1..][..i - 1];
    }
  }

  ghost predicate Fails(f: Intake.Front, id: Id) {
    id in f.failures || exists w :: 0 <= w < |f.git| && f.git[w] == Intake.Failing(id)
  }

  lemma OnlyFailFails(c: Config, s: State, a: Action, id: Id) returns (w: nat)
    requires Enabled(c, s, a) && !Fails(s.front, id) && Fails(Apply(c, s, a).front, id)
    ensures a == Front(Intake.GitFail(w))
    ensures w < |s.front.git| && !s.front.git[w].Idle? && s.front.git[w].id == id
  {
    hide Intake.Enabled, Intake.Apply, Ci.Apply, Outbox.Apply;
    if a.Front? && a.front.GitFail? {
      w := a.front.w;
      ThreadFails(c, s.front, a.front, id);
    } else if a.Front? {
      FailsNowhereElse(c, s.front, a.front, id);
    }
  }

  lemma ThreadFails(c: Config, f: Intake.Front, a: Intake.Action, id: Id)
    requires Intake.Enabled(c, f, a) && a.GitFail? && !Fails(f, id) && Fails(Intake.Apply(c, f, a), id)
    ensures a.w < |f.git| && !f.git[a.w].Idle? && f.git[a.w].id == id
  {
    var f' := Intake.Apply(c, f, a);
    var v :| 0 <= v < |f'.git| && f'.git[v] == Intake.Failing(id);
    assert v == a.w;
  }

  lemma FailsNowhereElse(c: Config, f: Intake.Front, a: Intake.Action, id: Id)
    requires Intake.Enabled(c, f, a) && !a.GitFail? && !Fails(f, id)
    ensures !Fails(Intake.Apply(c, f, a), id)
  {
    hide Fails, Intake.Apply, Intake.Enabled;
    if a.CatList? || a.CatFilter? || a.CatMark? || a.CatEnqueue? || a.IngestPick? || a.IngestMove? || a.IngestSpawn? {
      ScanFailsNothing(c, f, a, id);
    } else if a.GitStart? || a.GitClear? || a.GitTake? || a.GitReady? || a.GitPush? || a.GitQueue? {
      GitFailsNothing(c, f, a, id);
    } else {
      GitEndFailsNothing(c, f, a, id);
    }
  }

  lemma ScanFailsNothing(c: Config, f: Intake.Front, a: Intake.Action, id: Id)
    requires a.CatList? || a.CatFilter? || a.CatMark? || a.CatEnqueue? || a.IngestPick? || a.IngestMove? ||
             a.IngestSpawn?
    requires Intake.Enabled(c, f, a) && !Fails(f, id)
    ensures !Fails(Intake.Apply(c, f, a), id)
  {
    hide Fails, Intake.Wanted;
    FailsFrame(f, Intake.Apply(c, f, a), 0, id);
  }

  lemma GitFailsNothing(c: Config, f: Intake.Front, a: Intake.Action, id: Id)
    requires a.GitStart? || a.GitClear? || a.GitTake? || a.GitReady? || a.GitPush? || a.GitQueue?
    requires Intake.Enabled(c, f, a) && !Fails(f, id)
    ensures !Fails(Intake.Apply(c, f, a), id)
  {
    hide Fails;
    FailsFrame(f, Intake.Apply(c, f, a), a.w, id);
  }

  lemma GitEndFailsNothing(c: Config, f: Intake.Front, a: Intake.Action, id: Id)
    requires a.GitOk? || a.GitRemove? || a.GitFailMove? || a.GitBoned?
    requires Intake.Enabled(c, f, a) && !Fails(f, id)
    ensures !Fails(Intake.Apply(c, f, a), id)
  {
    hide Fails;
    FailsFrame(f, Intake.Apply(c, f, a), a.w, id);
  }

  lemma FailsFrame(f: Intake.Front, f': Intake.Front, w: nat, id: Id)
    requires !Fails(f, id)
    requires |f'.git| == |f.git|
    requires f'.git == f.git || (w < |f.git| && f'.git == f.git[w := f'.git[w]] && f'.git[w] != Intake.Failing(id))
    requires id in f'.failures ==> id in f.failures || (w < |f.git| && f.git[w] == Intake.Failing(id))
    ensures !Fails(f', id)
  {
  }

  /** A run, seen from one of its steps. */
  lemma RunThrough(c: Config, run: seq<Action>, i: nat)
    requires Legal(c, Init(c), run) && i < |run|
    ensures Legal(c, Init(c), run[..i]) && Enabled(c, Run(c, Init(c), run[..i]), run[i])
    ensures var next := Apply(c, Run(c, Init(c), run[..i]), run[i]);
            Legal(c, next, run[i + 1..]) && Run(c, next, run[i + 1..]) == Run(c, Init(c), run)
  {
    assert run == run[..i] + run[i..] && run[i..][0] == run[i] && run[i..][1..] == run[i + 1..];
    LegalSplit(c, Init(c), run[..i], run[i..]);
    hide Enabled, Apply;
  }

  /** After a task failed nothing adds its series to a queue, over any continuation. */
  lemma FailureFixesQueues(c: Config, run: seq<Action>, i: nat, w: nat, id: Id)
    requires Sighted(c) && Legal(c, Init(c), run) && FailedIn(c, run, i, w, id)
    ensures QueuedUpTo(c, Run(c, Init(c), run).front, id, ServedIn(c, run, i, w))
  {
    hide Legal, Run, Intake.Inv, Intake.StoppedAt, Intake.Enabled, Intake.Apply, QueuedUpTo;
    var s, a, done := Run(c, Init(c), run[..i]), run[i], ServedIn(c, run, i, w);
    RunThrough(c, run, i);
    ReachedFront(c, run[..i]);
    Intake.FailStops(c, s.front, w);
    StepKeepsFront(c, s, a);
    RunKeepsStopped(c, Apply(c, s, a), run[i + 1..], w, id, done);
    ReachedFront(c, run);
    StoppedQueues(c, Run(c, Init(c), run).front, w, id, done);
  }

  lemma StoppedQueues(c: Config, f: Intake.Front, w: nat, id: Id, done: nat)
    requires Intake.Inv(c, f) && Intake.StoppedAt(f, w, id, done)
    ensures QueuedUpTo(c, f, id, done)
  {
    hide Intake.Inv;
    Intake.QueueFacts(c, f, id);
  }

  lemma {:induction false} RunKeepsStopped(c: Config, s: State, run: seq<Action>, w: nat, id: Id, done: nat)
    requires Intake.Inv(c, s.front) && Intake.StoppedAt(s.front, w, id, done) && Legal(c, s, run)
    ensures Intake.StoppedAt(Run(c, s, run).front, w, id, done)
    decreases |run|
  {
    hide Intake.Inv;
    if run != [] {
      StepKeepsFront(c, s, run[0]);
      StepKeepsStopped(c, s, run[0], w, id, done);
      hide Enabled, Apply, Intake.StoppedAt;
      RunKeepsStopped(c, Apply(c, s, run[0]), run[1..], w, id, done);
    }
  }

  lemma StepKeepsStopped(c: Config, s: State, a: Action, w: nat, id: Id, done: nat)
    requires Intake.Inv(c, s.front) && Intake.StoppedAt(s.front, w, id, done) && Enabled(c, s, a)
    ensures Intake.StoppedAt(Apply(c, s, a).front, w, id, done)
  {
    hide Intake.Inv, Intake.Apply, Ci.Apply, Outbox.Apply;
    if a.Front? {
      Intake.StoppedStays(c, s.front, a.front, w, id, done);
    }
  }
}
