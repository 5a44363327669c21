/** Progress. Once the watchcat adds nothing, calls succeed and the runs have finished, every
    step of the actors lowers a measure, and the trees can be emptied exactly when no entry was
    stranded by a crash. */
module Drain {
  import opened Basics
  import opened Codec
  import opened Protocol
  import Intake
  import Ci
  import Outbox
  import Guarantees
  import Reach

  /** The final answer of a runner about a series. */
  type Answers = (Handle, Id) -> seq<RunnerResult>

  function AnswerFor(answers: Answers, v: Ci.Watcher): seq<RunnerResult> {
    answers(v.handle, v.id)
  }

  predicate AllFinished(jobs: seq<RunnerResult>) {
    forall r <- jobs :: Ci.Finished(r)
  }

  /** A step of an actor in a run without crash, without news from Patchwork, and with finished
      runs. A failing `do_work` is a step like any other. */
  predicate Productive(c: Config, answers: Answers, s: State, a: Action) {
    Enabled(c, s, a) &&
    match a
    case Front(b) => !b.CatList? && !b.CatFilter? && !b.CatMark? && !b.CatEnqueue? && !b.GitBoned?
    case Runner(Poll(t, jobs)) => AllFinished(jobs) && jobs == AnswerFor(answers, s.ci.watchers[t])
    case Runner(_) => true
    case Dispatcher(b) => !b.Foreign?
    case Crash => false
  }

  predicate ProductiveRun(c: Config, answers: Answers, s: State, run: seq<Action>)
    decreases |run|
  {
    run == [] || (Productive(c, answers, s, run[0]) && ProductiveRun(c, answers, Apply(c, s, run[0]), run[1..]))
  }

  lemma {:induction false} ProductiveIsLegal(c: Config, answers: Answers, s: State, run: seq<Action>)
    requires ProductiveRun(c, answers, s, run)
    ensures Legal(c, s, run)
    decreases |run|
  {
    if run != [] {
      ProductiveIsLegal(c, answers, Apply(c, s, run[0]), run[1..]);
    }
  }

  /** Nothing is left to do in any tree but "git failures". */
  predicate Drained(s: State) {
    && s.front.needsTesting == map[] && s.front.awaiting == map[] && s.front.onWorker == map[]
    && s.ci.queue == {} && s.ci.working == {}
    && s.out.dispatch == map[]
  }

  // ---- sums over the threads ----

  function Sum<T>(s: seq<T>, rank: T -> nat): nat {
    if s == [] then 0 else rank(s[0]) + Sum(s[1..], rank)
  }

  lemma {:induction false} SumUpdate<T>(s: seq<T>, rank: T -> nat, i: nat, v: T)
    requires i < |s|
    ensures Sum(s[i := v], rank) + rank(s[i]) == Sum(s, rank) + rank(v)
  {
    if i == 0 {
      assert s[i := v][1..] == s[1..];
    } else {
      assert s[i := v][1..] == s[1..][i - 1 := v];
      SumUpdate(s[1..], rank, i - 1, v);
    }
  }

  // ---- the measure ----

  function StepsLeft(remotes: nat, pc: Intake.GitPc): nat {
    match pc
    case Idle => 0
    case Queueing(_) => 2 * remotes + 8
    case Clear(_) => 2 * remotes + 7
    case Prep(_) => 2 * remotes + 6
    case Push(_, j) => if j < remotes then 2 * (remotes - j) + 4 else 4
    case Pushed(_, j) => if j < remotes then 2 * (remotes - j) + 3 else 4
    case Succeeded(_) => 3
    case Failing(_) => 2
  }

  function GitRank(remotes: nat): Intake.GitPc -> nat {
    (pc: Intake.GitPc) => StepsLeft(remotes, pc)
  }

  function IngestRank(pc: Intake.IngestPc): nat {
    match pc case Moved(_) => 2 case Resting => 1 case Picked(_) => 0
  }

  function JobRank(): Ci.JobPc -> nat {
    (pc: Ci.JobPc) => match pc case Spawning(_) => 3 case JobIdle => 2 case Starting(_) => 1 case Moving(_) => 0
  }

  /** Watchers that may still have to ask. */
  function OpenRank(): Ci.Watcher -> nat {
    (v: Ci.Watcher) => if v.pc.Polling? || (v.pc.Reporting? && !v.pc.all) then 1 else 0
  }

  function ReportRank(): Ci.Watcher -> nat {
    (v: Ci.Watcher) =>
      match v.pc case Polling => 0 case Reporting(todo, _) => |todo| + 2 case Leaving => 1 case Gone => 0
  }

  /** Keys of the tree this round has not handled. */
  function Left(keys: set<string>, drop: seq<string>): nat {
    |keys - (set key <- drop)|
  }

  function PostRank(p: Outbox.Out): int {
    match p.pc
    case Resting => 4 * |p.dispatch.Keys| + 2
    case Iterating(_, drop) => 4 * Left(p.dispatch.Keys, drop) + 1
    case Looking(_, drop, _, _) => 4 * Left(p.dispatch.Keys, drop)
    case Posting(_, drop, _, _) => 4 * Left(p.dispatch.Keys, drop) - 1
    case Acked(_, drop, _, _) => 4 * Left(p.dispatch.Keys, drop) - 2
    case Removing(drop) => if drop == [] then 4 * |p.dispatch.Keys| + 3 else 0
  }

  ghost predicate FrontLess(c: Config, f': Intake.Front, f: Intake.Front) {
    var rank := GitRank(|c.remotes|);
    || |f'.needsTesting.Keys| < |f.needsTesting.Keys|
    || (|f'.needsTesting.Keys| == |f.needsTesting.Keys| &&
        (|| IngestRank(f'.ingest) < IngestRank(f.ingest)
         || (IngestRank(f'.ingest) == IngestRank(f.ingest) &&
             (|| |f'.spawned| < |f.spawned|
              || (|f'.spawned| == |f.spawned| && Sum(f'.git, rank) < Sum(f.git, rank))))))
  }

  ghost predicate CiLess(s': Ci.Ci, s: Ci.Ci) {
    || |s'.queue| < |s.queue|
    || (|s'.queue| == |s.queue| &&
        (|| Sum(s'.jobs, JobRank()) < Sum(s.jobs, JobRank())
         || (Sum(s'.jobs, JobRank()) == Sum(s.jobs, JobRank()) &&
             (|| Sum(s'.watchers, OpenRank()) < Sum(s.watchers, OpenRank())
              || (Sum(s'.watchers, OpenRank()) == Sum(s.watchers, OpenRank()) &&
                  Sum(s'.watchers, ReportRank()) < Sum(s.watchers, ReportRank()))))))
  }

  ghost predicate OutLess(p': Outbox.Out, p: Outbox.Out) {
    || |p'.dispatch.Keys| < |p.dispatch.Keys|
    || (|p'.dispatch.Keys| == |p.dispatch.Keys| && 0 <= PostRank(p') < PostRank(p))
  }

  /** The trees and threads of one part, in pipeline order, decide before those of the next. */
  ghost predicate Less(c: Config, s': State, s: State) {
    || FrontLess(c, s'.front, s.front)
    || (s'.front == s.front && (CiLess(s'.ci, s.ci) || (s'.ci == s.ci && OutLess(s'.out, s.out))))
  }

  // ---- every productive step lowers it ----

  lemma ThreadLowers(c: Config, f: Intake.Front, f': Intake.Front, w: nat)
    requires f'.needsTesting == f.needsTesting && f'.ingest == f.ingest && f'.spawned == f.spawned
    requires w < |f.git| == |f'.git| && f'.git == f.git[w := f'.git[w]]
    requires StepsLeft(|c.remotes|, f'.git[w]) < StepsLeft(|c.remotes|, f.git[w])
    ensures FrontLess(c, f', f)
  {
    SumUpdate(f.git, GitRank(|c.remotes|), w, f'.git[w]);
  }

  lemma IngestLowers(c: Config, f: Intake.Front, a: Intake.Action)
    requires Intake.Enabled(c, f, a)
    requires a.IngestPick? || a.IngestMove? || a.IngestSpawn? || a.GitStart?
    ensures FrontLess(c, Intake.Apply(c, f, a), f)
  {
    if a.IngestMove? {
      assert Intake.Apply(c, f, a).needsTesting.Keys == f.needsTesting.Keys - {f.ingest.id};
    }
  }

  lemma TakingLowers(c: Config, f: Intake.Front, a: Intake.Action)
    requires Intake.Enabled(c, f, a)
    requires a.GitClear? || a.GitTake?
    ensures FrontLess(c, Intake.Apply(c, f, a), f)
  {
    hide FrontLess, Sum;
    ThreadLowers(c, f, Intake.Apply(c, f, a), a.w);
  }

  lemma PreparingLowers(c: Config, f: Intake.Front, a: Intake.Action)
    requires Intake.Enabled(c, f, a)
    requires a.GitReady? || a.GitFail?
    ensures FrontLess(c, Intake.Apply(c, f, a), f)
  {
    hide FrontLess, Sum;
    ThreadLowers(c, f, Intake.Apply(c, f, a), a.w);
  }

  lemma AtRemoteLowers(c: Config, f: Intake.Front, a: Intake.Action)
    requires Intake.Enabled(c, f, a)
    requires a.GitPush? || a.GitQueue? || a.GitOk?
    ensures FrontLess(c, Intake.Apply(c, f, a), f)
  {
    hide FrontLess, Sum;
    ThreadLowers(c, f, Intake.Apply(c, f, a), a.w);
  }

  lemma LeavingLowers(c: Config, f: Intake.Front, a: Intake.Action)
    requires Intake.Enabled(c, f, a)
    requires a.GitRemove? || a.GitFailMove?
    ensures FrontLess(c, Intake.Apply(c, f, a), f)
  {
    hide FrontLess, Sum;
    ThreadLowers(c, f, Intake.Apply(c, f, a), a.w);
  }

  lemma FrontLowers(c: Config, f: Intake.Front, a: Intake.Action)
    requires Intake.Enabled(c, f, a)
    requires !a.CatList? && !a.CatFilter? && !a.CatMark? && !a.CatEnqueue? && !a.GitBoned?
    ensures FrontLess(c, Intake.Apply(c, f, a), f)
  {
    hide FrontLess, Intake.Apply;
    match a
    case IngestPick(_) => IngestLowers(c, f, a);
    case IngestMove => IngestLowers(c, f, a);
    case IngestSpawn => IngestLowers(c, f, a);
    case GitStart(_, _) => IngestLowers(c, f, a);
    case GitClear(_) => TakingLowers(c, f, a);
    case GitTake(_) => TakingLowers(c, f, a);
    case GitReady(_) => PreparingLowers(c, f, a);
    case GitFail(_) => PreparingLowers(c, f, a);
    case GitRemove(_) => LeavingLowers(c, f, a);
    case GitFailMove(_) => LeavingLowers(c, f, a);
    case _ => AtRemoteLowers(c, f, a);
  }

  lemma CiLowers(c: Config, s: Ci.Ci, a: Ci.Action)
    requires Ci.Enabled(c, s, a)
    requires a.Poll? ==> AllFinished(a.jobs)
    ensures CiLess(Ci.Apply(c, s, a), s)
  {
    var s' := Ci.Apply(c, s, a);
    match a
    case JobPick(k, _) => SumUpdate(s.jobs, JobRank(), k, s'.jobs[k]);
    case JobStart(k) => SumUpdate(s.jobs, JobRank(), k, s'.jobs[k]);
    case JobMove(k) =>
    case JobSpawn(k) => SumUpdate(s.jobs, JobRank(), k, s'.jobs[k]);
    case Poll(t, _) => SumUpdate(s.watchers, OpenRank(), t, s'.watchers[t]);
    case Report(t) => WatcherLowers(s, s', t);
    case RoundEnd(t) => WatcherLowers(s, s', t);
    case Leave(t) => WatcherLowers(s, s', t);
  }

  lemma WatcherLowers(s: Ci.Ci, s': Ci.Ci, t: nat)
    requires s'.queue == s.queue && s'.jobs == s.jobs
    requires t < |s.watchers| == |s'.watchers| && s'.watchers == s.watchers[t := s'.watchers[t]]
    requires OpenRank()(s'.watchers[t]) == OpenRank()(s.watchers[t])
    requires ReportRank()(s'.watchers[t]) < ReportRank()(s.watchers[t])
    ensures CiLess(s', s)
  {
    SumUpdate(s.watchers, OpenRank(), t, s'.watchers[t]);
    SumUpdate(s.watchers, ReportRank(), t, s'.watchers[t]);
  }

  lemma HandledLowers(keys: set<string>, drop: seq<string>, key: string)
    requires key in keys && key !in drop
    ensures Left(keys, drop + [key]) == Left(keys, drop) - 1
  {
    var before, after := (set k <- drop), (set k <- drop + [key]);
    assert after == before + {key};
    assert keys - after == (keys - before) - {key};
  }

  /** While a key is held, sending and marking it lower the rank; so does picking it. */
  lemma SendLowers(c: Config, p: Outbox.Out, a: Outbox.Action)
    requires Outbox.PcSound(c, p) && Outbox.Enabled(c, p, a)
    requires a.Skip? || a.Look? || a.Post? || a.Ack? || a.Visit?
    ensures OutLess(Outbox.Apply(c, p, a), p)
  {
    hide Outbox.OnServer, Outbox.CheckFor, Outbox.KeySound, Outbox.OursAbsent, Outbox.Sendable, Outbox.DropSound;
    hide Left;
    HandledLowers(p.dispatch.Keys, p.pc.drop, if a.Visit? then a.key else p.pc.key);
  }

  lemma RoundLowers(c: Config, p: Outbox.Out, a: Outbox.Action)
    requires Outbox.PcSound(c, p) && Outbox.Enabled(c, p, a)
    requires a.RoundBegin? || a.IterEnd? || a.RoundOver?
    ensures OutLess(Outbox.Apply(c, p, a), p)
  {
    hide Outbox.DropSound, Outbox.HoldSound;
    if a.RoundBegin? {
      assert p.dispatch.Keys - (set key <- []) == p.dispatch.Keys;
    }
  }

  lemma RemovalLowers(c: Config, p: Outbox.Out, a: Outbox.Action)
    requires Outbox.PcSound(c, p) && Outbox.Enabled(c, p, a) && a.Remove?
    ensures OutLess(Outbox.Apply(c, p, a), p)
  {
    hide Outbox.OnServer, PostRank;
    assert Outbox.Apply(c, p, a).dispatch.Keys == p.dispatch.Keys - {p.pc.drop[0]};
  }

  lemma OutLowers(c: Config, p: Outbox.Out, a: Outbox.Action)
    requires Outbox.PcSound(c, p) && Outbox.Enabled(c, p, a) && !a.Foreign?
    ensures OutLess(Outbox.Apply(c, p, a), p)
  {
    hide OutLess, Outbox.PcSound, Outbox.Apply;
    match a
    case RoundBegin => RoundLowers(c, p, a);
    case IterEnd => RoundLowers(c, p, a);
    case Remove => RemovalLowers(c, p, a);
    case RoundOver => RoundLowers(c, p, a);
    case _ => SendLowers(c, p, a);
  }

  lemma StepLowers(c: Config, answers: Answers, s: State, a: Action)
    requires Base(c, s) && Productive(c, answers, s, a)
    ensures Less(c, Apply(c, s, a), s)
  {
    hide Intake.Rooted, Ci.Sound, Coupled, Intake.Apply, Ci.Apply, Outbox.Apply, Intake.Enabled, Ci.Enabled;
    hide Outbox.Enabled;
    hide FrontLess, CiLess, OutLess, Outbox.PcSound, AllFinished;
    match a
    case Front(b) => FrontLowers(c, s.front, b);
    case Runner(b) => CiLowers(c, s.ci, b);
    case Dispatcher(b) => OutLowers(c, s.out, b);
  }

  // ---- stranded entries ----

  ghost predicate Waited(git: seq<Intake.GitPc>, id: Id) {
    exists w :: 0 <= w < |git| && git[w].Waits() && git[w].id == id
  }

  /** Some task will take the series out of "awaiting git worker". */
  ghost predicate HasTask(f: Intake.Front, id: Id) {
    f.ingest == Intake.Moved(id) || id in f.spawned || Waited(f.git, id)
  }

  /** The thread of a worker tree is busy with this entry. */
  ghost predicate HasThread(f: Intake.Front, w: nat, id: Id) {
    w < |f.git| && f.git[w].Works() && f.git[w].id == id
  }

  ghost predicate Attended(watchers: seq<Ci.Watcher>, x: (Handle, Id)) {
    exists t :: 0 <= t < |watchers| && Ci.Pair(watchers[t]) == x && !watchers[t].pc.Gone?
  }

  ghost predicate Spawns(c: Config, jobs: seq<Ci.JobPc>, x: (Handle, Id)) {
    exists k :: 0 <= k < |jobs| <= |c.runners| && jobs[k] == Ci.Spawning(x.1) && c.runners[k] == x.0
  }

  ghost predicate HasWatcher(c: Config, jobs: seq<Ci.JobPc>, watchers: seq<Ci.Watcher>, x: (Handle, Id)) {
    Spawns(c, jobs, x) || Attended(watchers, x)
  }

  /** Somebody will take the series out of the working tree: its watcher, or the job watcher that
      finds it queued once more. */
  ghost predicate Tended(c: Config, s: Ci.Ci, x: (Handle, Id)) {
    x in s.queue || HasWatcher(c, s.jobs, s.watchers, x)
  }

  ghost predicate GitSideTended(f: Intake.Front) {
    && (forall id :: id in f.awaiting ==> HasTask(f, id))
    && (forall w, id :: (w, id) in f.onWorker ==> HasThread(f, w, id))
  }

  /** An entry of a tree from which only somebody in memory can take it. */
  datatype Entry = AtAwaiting(id: Id) | AtWorker(w: nat, id: Id) | AtRunner(h: Handle, id: Id)

  /** Nobody is left who will. */
  ghost predicate Stranded(c: Config, s: State, e: Entry) {
    match e
    case AtAwaiting(id) => id in s.front.awaiting && !HasTask(s.front, id)
    case AtWorker(w, id) => (w, id) in s.front.onWorker && !HasThread(s.front, w, id)
    case AtRunner(h, id) => (h, id) in s.ci.working && !Tended(c, s.ci, (h, id))
  }

  /** No entry was left behind by a crash or by a task that gave up. */
  ghost predicate NothingStranded(c: Config, s: State) {
    && GitSideTended(s.front)
    && (forall x :: x in s.ci.working ==> Tended(c, s.ci, x))
  }

  lemma WaitedFrame(git: seq<Intake.GitPc>, git': seq<Intake.GitPc>, w: nat, id: Id)
    requires w < |git| == |git'| && git' == git[w := git'[w]]
    ensures git[w].Waits() && git[w].id == id ==> Waited(git, id)
    ensures git'[w].Waits() && git'[w].id == id ==> Waited(git', id)
    ensures !(git[w].Waits() && git[w].id == id) && !(git'[w].Waits() && git'[w].id == id)
            ==> (Waited(git', id) <==> Waited(git, id))
  {
    assert forall v :: 0 <= v < |git| && v != w ==> git'[v] == git[v];
    if Waited(git, id) && !(git[w].Waits() && git[w].id == id) {
      var v :| 0 <= v < |git| && git[v].Waits() && git[v].id == id;
      assert git'[v] == git[v];
    }
  }

  /** How a step changes the condition on one awaiting series. */
  ghost predicate TaskKept(f: Intake.Front, f': Intake.Front, id: Id) {
    && (id in f'.awaiting && (id in f.awaiting ==> HasTask(f, id)) ==> HasTask(f', id))
    && (id in f.awaiting && !HasTask(f, id) ==> id in f'.awaiting && !HasTask(f', id))
  }

  lemma ThreadTask(c: Config, f: Intake.Front, a: Intake.Action, w: nat, id: Id)
    requires Intake.Inv(c, f) && Intake.Enabled(c, f, a)
    requires (a.GitClear? || a.GitTake? || a.GitReady? || a.GitPush? || a.GitQueue? || a.GitOk? || a.GitRemove?
              || a.GitFail? || a.GitFailMove?) && w == a.w
    ensures TaskKept(f, Intake.Apply(c, f, a), id)
  {
    hide Intake.Inv;
    hide Waited;
    WaitedFrame(f.git, Intake.Apply(c, f, a).git, w, id);
  }

  lemma IngestTask(c: Config, f: Intake.Front, a: Intake.Action, id: Id)
    requires Intake.Inv(c, f) && Intake.Enabled(c, f, a)
    requires a.IngestPick? || a.IngestMove? || a.IngestSpawn?
    ensures TaskKept(f, Intake.Apply(c, f, a), id)
  {
    hide Intake.Inv;
    hide Waited;
    Intake.IngestFacts(c, f);
    if a.IngestMove? {
      Intake.SeriesFacts(c, f, 0, f.ingest.id);
    }
  }

  lemma StartTask(c: Config, f: Intake.Front, a: Intake.Action, id: Id)
    requires Intake.Inv(c, f) && Intake.Enabled(c, f, a)
    requires a.GitStart?
    ensures TaskKept(f, Intake.Apply(c, f, a), id)
  {
    hide Intake.Inv;
    hide Waited;
    WaitedFrame(f.git, Intake.Apply(c, f, a).git, a.w, id);
  }

  lemma TaskStep(c: Config, f: Intake.Front, a: Intake.Action, id: Id)
    requires Intake.Inv(c, f) && Intake.Enabled(c, f, a)
    requires !a.CatList? && !a.CatFilter? && !a.CatMark? && !a.CatEnqueue? && !a.GitBoned?
    ensures TaskKept(f, Intake.Apply(c, f, a), id)
  {
    hide Intake.Inv, TaskKept, Intake.Apply;
    if a.GitStart? {
      StartTask(c, f, a, id);
    } else if a.IngestPick? || a.IngestMove? || a.IngestSpawn? {
      IngestTask(c, f, a, id);
    } else {
      ThreadTask(c, f, a, a.w, id);
    }
  }

  ghost predicate ThreadKept(f: Intake.Front, f': Intake.Front, w: nat, id: Id) {
    && ((w, id) in f'.onWorker && ((w, id) in f.onWorker ==> HasThread(f, w, id)) ==> HasThread(f', w, id))
    && ((w, id) in f.onWorker && !HasThread(f, w, id) ==> (w, id) in f'.onWorker && !HasThread(f', w, id))
  }

  /** What the invariant says about one thread and its tree. */
  lemma OwnTreeFacts(c: Config, f: Intake.Front, v: nat, id: Id)
    requires Intake.Inv(c, f) && v < |f.git|
    ensures f.git[v].Works() ==> ((v, id) in f.onWorker <==> id == f.git[v].id)
    ensures f.git[v].Clear? ==> (v, id) !in f.onWorker
  {
    hide Intake.Inv;
    Intake.ThreadFacts(c, f, v);
  }

  lemma ThreadMoves(c: Config, f: Intake.Front, a: Intake.Action, w: nat, id: Id)
    requires Intake.Inv(c, f) && Intake.Enabled(c, f, a)
    requires a.GitTake? || a.GitRemove? || a.GitFailMove?
    ensures ThreadKept(f, Intake.Apply(c, f, a), w, id)
  {
    hide Intake.Inv;
    if w < |f.git| {
      OwnTreeFacts(c, f, w, id);
    }
  }

  lemma ThreadStays(c: Config, f: Intake.Front, a: Intake.Action, w: nat, id: Id)
    requires Intake.Inv(c, f) && Intake.Enabled(c, f, a)
    requires a.GitClear? || a.GitReady? || a.GitPush? || a.GitQueue? || a.GitOk? || a.GitFail?
    ensures ThreadKept(f, Intake.Apply(c, f, a), w, id)
  {
    hide Intake.Inv;
    if w < |f.git| {
      OwnTreeFacts(c, f, w, id);
    }
  }

  lemma ThreadStep(c: Config, f: Intake.Front, a: Intake.Action, w: nat, id: Id)
    requires Intake.Inv(c, f) && Intake.Enabled(c, f, a)
    requires !a.CatList? && !a.CatFilter? && !a.CatMark? && !a.CatEnqueue? && !a.GitBoned?
    ensures ThreadKept(f, Intake.Apply(c, f, a), w, id)
  {
    hide Intake.Inv;
    match a
    case IngestPick(_) =>
    case IngestMove =>
    case IngestSpawn =>
    case GitStart(_, _) =>
    case GitTake(_) => ThreadMoves(c, f, a, w, id);
    case GitRemove(_) => ThreadMoves(c, f, a, w, id);
    case GitFailMove(_) => ThreadMoves(c, f, a, w, id);
    case _ => ThreadStays(c, f, a, w, id);
  }

  lemma ListStep(c: Config, f: Intake.Front, a: Intake.Action, w: nat, id: Id)
    requires Intake.Enabled(c, f, a) && (a.CatList? || a.CatFilter?)
    ensures TaskKept(f, Intake.Apply(c, f, a), id) && ThreadKept(f, Intake.Apply(c, f, a), w, id)
  {
  }

  lemma MarkStep(c: Config, f: Intake.Front, a: Intake.Action, w: nat, id: Id)
    requires Intake.Enabled(c, f, a) && (a.CatMark? || a.CatEnqueue?)
    ensures TaskKept(f, Intake.Apply(c, f, a), id) && ThreadKept(f, Intake.Apply(c, f, a), w, id)
  {
  }

  lemma FrontStep(c: Config, f: Intake.Front, a: Intake.Action, w: nat, id: Id)
    requires Intake.Inv(c, f) && Intake.Enabled(c, f, a) && !a.GitBoned?
    ensures TaskKept(f, Intake.Apply(c, f, a), id) && ThreadKept(f, Intake.Apply(c, f, a), w, id)
  {
    hide Intake.Inv, Intake.Enabled, Intake.Apply, TaskKept, ThreadKept;
    if a.CatList? || a.CatFilter? {
      ListStep(c, f, a, w, id);
    } else if a.CatMark? || a.CatEnqueue? {
      MarkStep(c, f, a, w, id);
    } else {
      TaskStep(c, f, a, id);
      ThreadStep(c, f, a, w, id);
    }
  }

  lemma WatchedFrame(ws: seq<Ci.Watcher>, ws': seq<Ci.Watcher>, t: nat, x: (Handle, Id))
    requires t < |ws| == |ws'| && ws' == ws[t := ws'[t]] && Ci.Pair(ws'[t]) == Ci.Pair(ws[t])
    ensures Ci.Pair(ws[t]) != x ==> (Attended(ws', x) <==> Attended(ws, x))
    ensures Ci.Pair(ws[t]) == x && !ws[t].pc.Gone? ==> Attended(ws, x)
    ensures Ci.Pair(ws[t]) == x && !ws'[t].pc.Gone? ==> Attended(ws', x)
  {
    assert forall u :: 0 <= u < |ws| && u != t ==> ws'[u] == ws[u];
  }

  lemma WatchedAppend(ws: seq<Ci.Watcher>, v: Ci.Watcher, x: (Handle, Id))
    requires !v.pc.Gone?
    ensures Attended(ws + [v], x) <==> Attended(ws, x) || Ci.Pair(v) == x
  {
    assert (ws + [v])[|ws|] == v;
    assert forall u :: 0 <= u < |ws| ==> (ws + [v])[u] == ws[u];
  }

  lemma SpawnsFrame(c: Config, jobs: seq<Ci.JobPc>, jobs': seq<Ci.JobPc>, k: nat, x: (Handle, Id))
    requires k < |jobs| == |jobs'| <= |c.runners| && jobs' == jobs[k := jobs'[k]]
    ensures jobs[k] == Ci.Spawning(x.1) && c.runners[k] == x.0 ==> Spawns(c, jobs, x)
    ensures jobs'[k] == Ci.Spawning(x.1) && c.runners[k] == x.0 ==> Spawns(c, jobs', x)
    ensures !(jobs[k] == Ci.Spawning(x.1) && c.runners[k] == x.0) &&
            !(jobs'[k] == Ci.Spawning(x.1) && c.runners[k] == x.0)
            ==> (Spawns(c, jobs', x) <==> Spawns(c, jobs, x))
  {
    assert forall u :: 0 <= u < |jobs| && u != k ==> jobs'[u] == jobs[u];
    if Spawns(c, jobs, x) && !(jobs[k] == Ci.Spawning(x.1) && c.runners[k] == x.0) {
      var u :| 0 <= u < |jobs| && jobs[u] == Ci.Spawning(x.1) && c.runners[u] == x.0;
      assert jobs'[u] == jobs[u];
    }
  }

  ghost predicate WatcherKept(c: Config, s: Ci.Ci, s': Ci.Ci, x: (Handle, Id)) {
    && (x in s'.working && (x in s.working ==> Tended(c, s, x)) ==> Tended(c, s', x))
    && (x in s.working && !Tended(c, s, x) ==> x in s'.working && !Tended(c, s', x))
  }

  lemma JobStep(c: Config, s: Ci.Ci, a: Ci.Action, x: (Handle, Id))
    requires Ci.JobsArrived(c, s.jobs, s.arrived) && Ci.Enabled(c, s, a)
    requires a.JobPick? || a.JobStart? || a.JobMove? || a.JobSpawn?
    ensures WatcherKept(c, s, Ci.Apply(c, s, a), x)
  {
    hide Attended, Spawns;
    var s' := Ci.Apply(c, s, a);
    SpawnsFrame(c, s.jobs, s'.jobs, a.k, x);
    if a.JobSpawn? {
      WatchedAppend(s.watchers, s'.watchers[|s.watchers|], x);
    }
  }

  lemma WatchStep(c: Config, s: Ci.Ci, a: Ci.Action, x: (Handle, Id))
    requires Ci.Enabled(c, s, a)
    requires a.Poll? || a.Report? || a.RoundEnd? || a.Leave?
    ensures WatcherKept(c, s, Ci.Apply(c, s, a), x)
  {
    hide Attended, Spawns;
    WatchedFrame(s.watchers, Ci.Apply(c, s, a).watchers, a.t, x);
  }

  lemma WatcherStep(c: Config, s: Ci.Ci, a: Ci.Action, x: (Handle, Id))
    requires Ci.JobsArrived(c, s.jobs, s.arrived) && Ci.Enabled(c, s, a)
    ensures WatcherKept(c, s, Ci.Apply(c, s, a), x)
  {
    hide WatcherKept, Ci.JobsArrived, Ci.Enabled, Ci.Apply;
    if a.Poll? || a.Report? || a.RoundEnd? || a.Leave? {
      WatchStep(c, s, a, x);
    } else {
      JobStep(c, s, a, x);
    }
  }

  /** Neither the process nor a single git task gives up. */
  predicate Calm(a: Action) {
    !a.Crash? && !(a.Front? && a.front.GitBoned?)
  }

  // ---- what shared handles do not break ----

  /** The job watcher holds a series that another one moved. */
  predicate Stuck(h: Handle, pc: Ci.JobPc, queue: set<(Handle, Id)>) {
    (pc.Starting? || pc.Moving?) && (h, pc.id) !in queue
  }

  /** Of the job watchers that share a queue one at least can go on. */
  ghost predicate SomeoneFree(c: Config, s: Ci.Ci) {
    && |s.jobs| == |c.runners|
    && forall h <- c.runners :: FreeAt(c, s, h)
  }

  ghost predicate FreeAt(c: Config, s: Ci.Ci, h: Handle) {
    exists k :: 0 <= k < |s.jobs| == |c.runners| && c.runners[k] == h && !Stuck(h, s.jobs[k], s.queue)
  }

  lemma JobsKeepFree(c: Config, s: Ci.Ci, a: Ci.Action, h: Handle)
    requires FreeAt(c, s, h) && Ci.Enabled(c, s, a)
    ensures FreeAt(c, Ci.Apply(c, s, a), h)
  {
    var s' := Ci.Apply(c, s, a);
    var k :| 0 <= k < |s.jobs| && c.runners[k] == h && !Stuck(h, s.jobs[k], s.queue);
    if a.JobMove? && c.runners[a.k] == h {
      assert !Stuck(h, s'.jobs[a.k], s'.queue);
    } else {
      assert !Stuck(h, s'.jobs[k], s'.queue);
    }
  }

  /** While a task works on a series, nobody lost it at a runner. */
  ghost predicate WorkedOnTended(c: Config, s: State) {
    forall w: nat, x: (Handle, Id) :: HasThread(s.front, w, x.1) && x in s.ci.working ==> Tended(c, s.ci, x)
  }

  /** The invariant behind progress, whatever the handles are. */
  ghost predicate Steady(c: Config, s: State) {
    Inv(c, s) && SomeoneFree(c, s.ci) && WorkedOnTended(c, s)
  }

  lemma InitSteady(c: Config)
    requires Sighted(c)
    ensures Steady(c, Init(c))
  {
    InitInv(c);
    var s := Init(c);
    forall h | h in c.runners ensures FreeAt(c, s.ci, h) {
      var k :| 0 <= k < |c.runners| && c.runners[k] == h;
      assert !Stuck(h, s.ci.jobs[k], s.ci.queue);
    }
  }

  lemma CrashKeepsSteady(c: Config, s: State)
    requires Inv(c, s) && SomeoneFree(c, s.ci)
    ensures SomeoneFree(c, Ci.Crash(s.ci)) && WorkedOnTended(c, Apply(c, s, Crash))
  {
    hide Inv;
    CrashFrees(c, s.ci);
    forall w: nat, id: Id ensures !HasThread(Intake.Crash(s.front), w, id) {}
    hide HasThread, SomeoneFree, Tended;
  }

  lemma CrashFrees(c: Config, s: Ci.Ci)
    requires |s.jobs| == |c.runners|
    ensures SomeoneFree(c, Ci.Crash(s))
  {
    forall h | h in c.runners ensures FreeAt(c, Ci.Crash(s), h) {
      var k :| 0 <= k < |c.runners| && c.runners[k] == h;
      assert !Stuck(h, Ci.Crash(s).jobs[k], s.queue);
    }
  }

  /** A series being taken was never queued at a runner. */
  lemma TakenIsNew(c: Config, s: State, w: nat, x: (Handle, Id))
    requires Inv(c, s) && w < |s.front.git| && s.front.git[w].Clear? && s.front.git[w].id in s.front.awaiting
    requires x in s.ci.working
    ensures s.front.git[w].id != x.1
  {
    hide Intake.Inv, Outbox.Sound, Ci.JobsArrived, Ci.WatchersSound, Ci.FinishedSound;
    var id := s.front.git[w].id;
    assert s.front.queued[x] > 0;
    Intake.SeriesFacts(c, s.front, w, id);
    Intake.QueueFacts(c, s.front, id);
  }

  /** What the front does to the series at work, and to the runner queues. */
  lemma FrontReach(c: Config, s: State, b: Intake.Action, w: nat, x: (Handle, Id))
    requires Inv(c, s) && Intake.Enabled(c, s.front, b) && x in s.ci.working
    ensures HasThread(Intake.Apply(c, s.front, b), w, x.1) ==> HasThread(s.front, w, x.1)
  {
    hide Inv, Intake.Apply, HasThread;
    if b.GitTake? {
      TakenIsNew(c, s, b.w, x);
    }
    ThreadsReach(c, s.front, b, w, x.1);
  }

  lemma QueueReach(c: Config, s: State, b: Intake.Action, x: (Handle, Id))
    requires Enabled(c, s, Front(b))
    ensures x in Apply(c, s, Front(b)).ci.queue && x !in s.ci.queue ==> exists v :: HasThread(s.front, v, x.1)
  {
    if Intake.Output(c, s.front, b).Some? {
      OutputHasThread(c, s.front, b);
    }
    hide Intake.Enabled, Intake.Output, Intake.Apply, HasThread;
  }

  lemma OutputHasThread(c: Config, f: Intake.Front, b: Intake.Action)
    requires Intake.Enabled(c, f, b) && Intake.Output(c, f, b).Some?
    ensures exists v :: HasThread(f, v, Intake.Output(c, f, b).value.1)
  {
    assert HasThread(f, b.w, f.git[b.w].id);
  }

  lemma ThreadsReach(c: Config, f: Intake.Front, b: Intake.Action, w: nat, id: Id)
    requires Intake.Enabled(c, f, b) && (b.GitTake? ==> f.git[b.w].id != id)
    ensures HasThread(Intake.Apply(c, f, b), w, id) ==> HasThread(f, w, id)
  {
    hide HasThread, Intake.Apply;
    if b.CatList? || b.CatFilter? || b.CatMark? || b.CatEnqueue? || b.IngestPick? || b.IngestMove? || b.IngestSpawn? {
      ScanKeepsThreads(c, f, b);
    } else {
      ThreadReaches(c, f, b, w, id);
    }
  }

  lemma ScanKeepsThreads(c: Config, f: Intake.Front, b: Intake.Action)
    requires b.CatList? || b.CatFilter? || b.CatMark? || b.CatEnqueue? || b.IngestPick? || b.IngestMove? ||
             b.IngestSpawn?
    requires Intake.Enabled(c, f, b)
    ensures forall w: nat, id: Id :: HasThread(Intake.Apply(c, f, b), w, id) <==> HasThread(f, w, id)
  {
    assert Intake.Apply(c, f, b).git == f.git;
  }

  lemma ThreadReaches(c: Config, f: Intake.Front, b: Intake.Action, w: nat, id: Id)
    requires !b.CatList? && !b.CatFilter? && !b.CatMark? && !b.CatEnqueue?
    requires !b.IngestPick? && !b.IngestMove? && !b.IngestSpawn?
    requires Intake.Enabled(c, f, b) && (b.GitTake? ==> f.git[b.w].id != id)
    ensures HasThread(Intake.Apply(c, f, b), w, id) ==> HasThread(f, w, id)
  {
  }

  lemma FrontKeepsSteady(c: Config, s: State, b: Intake.Action)
    requires Steady(c, s) && Enabled(c, s, Front(b))
    ensures var s' := Apply(c, s, Front(b)); SomeoneFree(c, s'.ci) && WorkedOnTended(c, s')
  {
    var s' := Apply(c, s, Front(b));
    assert s'.ci.working == s.ci.working && s'.ci.jobs == s.ci.jobs && s'.ci.watchers == s.ci.watchers
           && s.ci.queue <= s'.ci.queue && s'.front == Intake.Apply(c, s.front, b);
    assert Intake.Enabled(c, s.front, b);
    hide Inv, Enabled, Apply, HasThread, HasWatcher, Intake.Apply, Intake.Enabled;
    forall h | h in c.runners ensures FreeAt(c, s'.ci, h) {
      var k :| 0 <= k < |c.runners| && c.runners[k] == h && !Stuck(h, s.ci.jobs[k], s.ci.queue);
      assert !Stuck(h, s'.ci.jobs[k], s'.ci.queue);
    }
    forall w: nat, x: (Handle, Id) | HasThread(s'.front, w, x.1) && x in s'.ci.working ensures Tended(c, s'.ci, x) {
      FrontReach(c, s, b, w, x);
    }
  }

  lemma RunnerKeepsSteady(c: Config, s: State, b: Ci.Action)
    requires Steady(c, s) && Enabled(c, s, Runner(b))
    ensures var s' := Apply(c, s, Runner(b)); SomeoneFree(c, s'.ci) && WorkedOnTended(c, s')
  {
    hide Intake.Inv, Outbox.Sound, Coupled, Tended, HasThread, FreeAt, Ci.Apply, Ci.Output, Ci.Enabled;
    var s' := Apply(c, s, Runner(b));
    assert s'.front == s.front && s'.ci == Ci.Apply(c, s.ci, b);
    SameRunners(c, s.ci, b);
    forall h | h in c.runners ensures FreeAt(c, s'.ci, h) { JobsKeepFree(c, s.ci, b, h); }
    forall w: nat, x: (Handle, Id) | HasThread(s'.front, w, x.1) && x in s'.ci.working ensures Tended(c, s'.ci, x) {
      WatcherStep(c, s.ci, b, x);
    }
  }

  lemma SameRunners(c: Config, s: Ci.Ci, b: Ci.Action)
    requires Ci.Enabled(c, s, b)
    ensures |Ci.Apply(c, s, b).jobs| == |s.jobs|
  {
  }

  lemma StepKeepsSteady(c: Config, s: State, a: Action)
    requires WordHandles(c) && Steady(c, s) && Enabled(c, s, a)
    ensures Steady(c, Apply(c, s, a))
  {
    hide Inv, SomeoneFree, WorkedOnTended, Enabled;
    StepKeepsInv(c, s, a);
    match a
    case Front(b) => FrontKeepsSteady(c, s, b);
    case Runner(b) => RunnerKeepsSteady(c, s, b);
    case Dispatcher(b) => DispatcherKeepsSteady(c, s, b);
    case Crash => CrashKeepsSteady(c, s);
  }

  lemma DispatcherKeepsSteady(c: Config, s: State, b: Outbox.Action)
    requires Steady(c, s) && Enabled(c, s, Dispatcher(b))
    ensures var s' := Apply(c, s, Dispatcher(b)); SomeoneFree(c, s'.ci) && WorkedOnTended(c, s')
  {
    hide Inv;
  }

  lemma {:induction false} RunKeepsSteady(c: Config, s: State, run: seq<Action>)
    requires WordHandles(c) && Steady(c, s) && Legal(c, s, run)
    ensures Steady(c, Run(c, s, run))
    decreases |run|
  {
    hide Steady, Enabled, Apply;
    if run != [] {
      StepKeepsSteady(c, s, run[0]);
      RunKeepsSteady(c, Apply(c, s, run[0]), run[1..]);
    }
  }

  lemma ReachedSteady(c: Config, run: seq<Action>)
    requires Sighted(c) && WordHandles(c) && Legal(c, Init(c), run)
    ensures Steady(c, Run(c, Init(c), run))
  {
    InitSteady(c);
    RunKeepsSteady(c, Init(c), run);
  }

  // ---- calm steps and stranded entries ----

  /** A queue insertion of the front does not save an entry nobody tends. */
  lemma FrontKeepsTended(c: Config, s: State, b: Intake.Action, x: (Handle, Id))
    requires Steady(c, s) && Enabled(c, s, Front(b)) && x in s.ci.working
    ensures Tended(c, Apply(c, s, Front(b)).ci, x) <==> Tended(c, s.ci, x)
  {
    var s' := Apply(c, s, Front(b));
    assert s'.ci.jobs == s.ci.jobs && s'.ci.watchers == s.ci.watchers && s.ci.queue <= s'.ci.queue;
    hide Inv, Enabled, Apply, HasThread, HasWatcher;
    QueueReach(c, s, b, x);
  }

  /** A calm step neither strands an entry nor rescues one. */
  lemma StepKeepsStranded(c: Config, s: State, a: Action)
    requires Steady(c, s) && Enabled(c, s, a) && Calm(a)
    ensures NothingStranded(c, Apply(c, s, a)) <==> NothingStranded(c, s)
  {
    hide HasTask, HasThread, Tended, Steady, Intake.Inv, Ci.Sound, Outbox.Sound, Coupled;
    hide Intake.Apply, Ci.Apply, Outbox.Apply, Intake.Enabled, Ci.Enabled, Outbox.Enabled;
    var s' := Apply(c, s, a);
    match a
    case Front(b) => FrontKeepsStranded(c, s, b);
    case Runner(b) => RunnerKeepsStranded(c, s, b);
    case Dispatcher(_) =>
  }

  lemma FrontKeepsStranded(c: Config, s: State, b: Intake.Action)
    requires Steady(c, s) && Enabled(c, s, Front(b)) && !b.GitBoned?
    ensures NothingStranded(c, Apply(c, s, Front(b))) <==> NothingStranded(c, s)
  {
    var s' := Apply(c, s, Front(b));
    GitSideKept(c, s.front, b);
    assert s'.front == Intake.Apply(c, s.front, b) && s'.ci.working == s.ci.working;
    hide HasTask, HasThread, Tended, Steady, Inv, Intake.Inv, Intake.Apply, Intake.Enabled, Apply, Enabled;
    forall x | x in s.ci.working ensures Tended(c, s'.ci, x) <==> Tended(c, s.ci, x) { FrontKeepsTended(c, s, b, x); }
  }

  lemma GitSideKept(c: Config, f: Intake.Front, b: Intake.Action)
    requires Intake.Inv(c, f) && Intake.Enabled(c, f, b) && !b.GitBoned?
    ensures GitSideTended(Intake.Apply(c, f, b)) <==> GitSideTended(f)
  {
    hide HasTask, HasThread, Intake.Inv, Intake.Apply, Intake.Enabled, TaskKept, ThreadKept;
    var f' := Intake.Apply(c, f, b);
    forall id: Id ensures TaskKept(f, f', id) { FrontStep(c, f, b, 0, id); }
    forall w: nat, id: Id ensures ThreadKept(f, f', w, id) { FrontStep(c, f, b, w, id); }
    AllKept(f, f');
  }

  lemma AllKept(f: Intake.Front, f': Intake.Front)
    requires forall id :: TaskKept(f, f', id)
    requires forall w, id :: ThreadKept(f, f', w, id)
    ensures GitSideTended(f') <==> GitSideTended(f)
  {
    hide HasTask, HasThread;
    assert forall id :: id in f.awaiting || id in f'.awaiting ==> TaskKept(f, f', id);
    assert forall w, id :: (w, id) in f.onWorker || (w, id) in f'.onWorker ==> ThreadKept(f, f', w, id);
  }

  lemma RunnerKeepsStranded(c: Config, s: State, b: Ci.Action)
    requires Steady(c, s) && Enabled(c, s, Runner(b))
    ensures NothingStranded(c, Apply(c, s, Runner(b))) <==> NothingStranded(c, s)
  {
    var s' := Apply(c, s, Runner(b));
    assert s'.front == s.front && s'.ci == Ci.Apply(c, s.ci, b) && Ci.JobsArrived(c, s.ci.jobs, s.ci.arrived);
    hide GitSideTended, Tended, Steady, Inv, Ci.Apply, Ci.Enabled, Ci.JobsArrived, Apply, Enabled;
    forall x ensures WatcherKept(c, s.ci, s'.ci, x) { WatcherStep(c, s.ci, b, x); }
    assert forall x :: x in s.ci.working || x in s'.ci.working ==> WatcherKept(c, s.ci, s'.ci, x);
  }

  // ---- there is always something to do ----

  /** The program is set up so that every remote's queue has a watcher. */
  predicate Staffed(c: Config) {
    c.workers > 0 && forall h <- c.remotes :: h in c.runners
  }

  lemma BusyThreadCanStep(c: Config, f: Intake.Front, w: nat) returns (b: Intake.Action)
    requires Intake.Inv(c, f) && w < |f.git| && !f.git[w].Idle?
    requires GitSideTended(f)
    ensures Intake.Enabled(c, f, b)
    ensures !b.CatList? && !b.CatFilter? && !b.CatMark? && !b.CatEnqueue? && !b.GitBoned?
  {
    hide Intake.Inv;
    Intake.ThreadFacts(c, f, w);
    b := match f.git[w]
      case Queueing(_) => Intake.GitClear(w)
      case Clear(_) => Intake.GitTake(w)
      case Prep(_) => Intake.GitReady(w)
      case Push(_, j) => if j < |c.remotes| then Intake.GitPush(w) else Intake.GitOk(w)
      case Pushed(_, _) => Intake.GitQueue(w)
      case Succeeded(_) => Intake.GitRemove(w)
      case _ => Intake.GitFailMove(w);
  }

  lemma NoThreadThere(f: Intake.Front)
    requires f.onWorker != map[] && forall v, id :: (v, id) in f.onWorker ==> HasThread(f, v, id)
    ensures exists w :: 0 <= w < |f.git| && !f.git[w].Idle?
  {
    var k :| k in f.onWorker;
    assert HasThread(f, k.0, k.1);
  }

  lemma FrontCanStep(c: Config, f: Intake.Front) returns (b: Intake.Action)
    requires Intake.Inv(c, f) && c.workers > 0 && GitSideTended(f)
    requires f.needsTesting != map[] || f.awaiting != map[] || f.onWorker != map[]
    ensures Intake.Enabled(c, f, b)
    ensures !b.CatList? && !b.CatFilter? && !b.CatMark? && !b.CatEnqueue? && !b.GitBoned?
  {
    Intake.IngestFacts(c, f);
    assert |f.git| == c.workers;
    hide Intake.Inv, GitSideTended, Intake.NoneWaitsFor;
    if f.ingest.Moved? {
      b := Intake.IngestSpawn;
    } else if f.ingest.Picked? {
      b := Intake.IngestMove;
    } else if w: nat :| w < |f.git| && !f.git[w].Idle? {
      b := BusyThreadCanStep(c, f, w);
    } else {
      b := PickSomething(c, f);
    }
  }

  /** With all threads and the ingest loop at rest. */
  lemma PickSomething(c: Config, f: Intake.Front) returns (b: Intake.Action)
    requires |f.git| == c.workers > 0 && GitSideTended(f) && f.ingest.Resting?
    requires forall w :: 0 <= w < |f.git| ==> f.git[w].Idle?
    requires f.needsTesting != map[] || f.awaiting != map[] || f.onWorker != map[]
    ensures Intake.Enabled(c, f, b) && (b.GitStart? || b.IngestPick?)
  {
    if id: Id :| id in f.spawned {
      b := Intake.GitStart(0, id);
    } else if id: Id :| id in f.needsTesting {
      b := Intake.IngestPick(id);
    } else if id: Id :| id in f.awaiting {
      assert false;
    } else {
      assert false by { NoThreadThere(f); }
    }
  }

  lemma NobodyThere(c: Config, s: Ci.Ci)
    requires s.queue == {} && s.working != {} && forall x :: x in s.working ==> Tended(c, s, x)
    ensures (exists k :: 0 <= k < |s.jobs| && s.jobs[k].Spawning?)
            || (exists t :: 0 <= t < |s.watchers| && !s.watchers[t].pc.Gone?)
  {
    var x :| x in s.working;
    assert HasWatcher(c, s.jobs, s.watchers, x);
  }

  lemma CiCanStep(c: Config, answers: Answers, s: Ci.Ci) returns (b: Ci.Action)
    requires SomeoneFree(c, s)
    requires forall x :: x in s.queue ==> x.0 in c.runners
    requires forall x :: x in s.working ==> Tended(c, s, x)
    requires s.queue != {} || s.working != {}
    ensures Ci.Enabled(c, s, b)
    ensures b.Poll? ==> b.jobs == AnswerFor(answers, s.watchers[b.t])
  {
    if k: nat :| k < |s.jobs| && !s.jobs[k].JobIdle? && !Stuck(c.runners[k], s.jobs[k], s.queue) {
      b := match s.jobs[k]
        case Starting(_) => Ci.JobStart(k)
        case Moving(_) => Ci.JobMove(k)
        case _ => Ci.JobSpawn(k);
    } else if t: nat :| t < |s.watchers| && !s.watchers[t].pc.Gone? {
      var v := s.watchers[t];
      b := match v.pc
        case Polling => Ci.Poll(t, AnswerFor(answers, v))
        case Reporting(todo, _) => if todo == [] then Ci.RoundEnd(t) else Ci.Report(t)
        case _ => Ci.Leave(t);
    } else if x: (Handle, Id) :| x in s.queue {
      assert FreeAt(c, s, x.0);
      var k :| 0 <= k < |s.jobs| && c.runners[k] == x.0 && !Stuck(x.0, s.jobs[k], s.queue);
      b := Ci.JobPick(k, x.1);
    } else {
      assert false by { NobodyThere(c, s); }
    }
  }

  lemma OutCanStep(c: Config, p: Outbox.Out) returns (b: Outbox.Action)
    requires Outbox.Sound(c, p) && p.dispatch != map[]
    requires p.pc.HoldsKey() ==> Outbox.Sendable(c, p.pc.key)
    ensures Outbox.Enabled(c, p, b) && !b.Foreign?
  {
    hide Outbox.OnServer, Outbox.Explained, Outbox.PostedOnce, Outbox.HandledSound, Outbox.Conserved, Outbox.OursAbsent;
    hide ParseKey;
    match p.pc
    case Resting => b := Outbox.RoundBegin;
    case Iterating(must, drop) =>
      if key :| key in must && key !in drop {
        assert Outbox.KeySound(key, p.dispatch[key], p.inbox);
        b := Outbox.Visit(key);
      } else {
        b := Outbox.IterEnd;
      }
    case Looking(_, _, _, _) => b := if c.token then Outbox.Look else Outbox.Skip;
    case Posting(_, _, _, _) => b := Outbox.Post;
    case Acked(_, _, _, _) => b := Outbox.Ack;
    case Removing(drop) => b := if drop == [] then Outbox.RoundOver else Outbox.Remove;
  }

  lemma QueueHasRunner(c: Config, s: State, x: (Handle, Id))
    requires Staffed(c) && Inv(c, s) && x in s.ci.queue
    ensures x.0 in c.runners
  {
    hide Intake.Inv;
    assert s.front.queued[x] > 0;
    Intake.QueueFacts(c, s.front, x.1);
    assert (x.0, x.1) in s.front.queued;
  }

  /** Unless everything is drained some actor has a productive step. */
  lemma SomethingToDo(c: Config, answers: Answers, s: State) returns (a: Action)
    requires Staffed(c) && Steady(c, s) && NothingStranded(c, s) && !Drained(s)
    requires forall h, id :: AllFinished(answers(h, id))
    ensures Productive(c, answers, s, a)
  {
    hide HasTask, HasThread, Tended, SomeoneFree, WorkedOnTended, Intake.Inv, Ci.Sound, Outbox.Sound, Coupled;
    hide Intake.Enabled, Ci.Enabled, Outbox.Enabled, AllFinished;
    if s.front.needsTesting != map[] || s.front.awaiting != map[] || s.front.onWorker != map[] {
      var b := FrontCanStep(c, s.front);
      a := Front(b);
    } else if s.ci.queue != {} || s.ci.working != {} {
      forall x | x in s.ci.queue ensures x.0 in c.runners { QueueHasRunner(c, s, x); }
      var b := CiCanStep(c, answers, s.ci);
      a := Runner(b);
    } else {
      Guarantees.KeysSendable(c, s);
      var b := OutCanStep(c, s.out);
      a := Dispatcher(b);
    }
  }

  // ---- the pipeline empties ----

  /** However the actors are scheduled, productive steps run out. */
  lemma EveryScheduleRunsOut(c: Config, answers: Answers, run: seq<Action>, schedule: nat -> Action) returns (n: nat)
    requires WordHandles(c) && Legal(c, Init(c), run)
    ensures !ProductiveRun(c, answers, Run(c, Init(c), run), seq(n, i requires 0 <= i < n => schedule(i)))
  {
    hide Legal, Run, Base, ProductiveRun;
    ReachedBase(c, run);
    n := ProductiveStepsRunOut(c, answers, Run(c, Init(c), run), schedule);
  }

  lemma {:induction false} ProductiveStepsRunOut(c: Config, answers: Answers, s: State, schedule: nat -> Action)
    returns (n: nat)
    requires WordHandles(c) && Base(c, s)
    ensures !ProductiveRun(c, answers, s, seq(n, i requires 0 <= i < n => schedule(i)))
    decreases |s.front.needsTesting.Keys|, IngestRank(s.front.ingest), |s.front.spawned|,
              Sum(s.front.git, GitRank(|c.remotes|)),
              |s.ci.queue|, Sum(s.ci.jobs, JobRank()), Sum(s.ci.watchers, OpenRank()), Sum(s.ci.watchers, ReportRank()),
              |s.out.dispatch.Keys|, PostRank(s.out)
  {
    hide Base, Enabled, Apply, Productive, Sum, IngestRank, PostRank, GitRank, JobRank, OpenRank, ReportRank;
    var a := schedule(0);
    if Productive(c, answers, s, a) {
      assert Enabled(c, s, a) by { ProductiveEnabled(c, answers, s, a); }
      var s' := Apply(c, s, a);
      StepKeepsBase(c, s, a);
      StepLowers(c, answers, s, a);
      var later := (i: nat) => schedule(i + 1);
      var m := ProductiveStepsRunOut(c, answers, s', later);
      n := m + 1;
      var run := seq(n, i requires 0 <= i < n => schedule(i));
      assert run[0] == a && run[1..] == seq(m, i requires 0 <= i < m => later(i));
    } else {
      n := 1;
      var run := seq(n, i requires 0 <= i < n => schedule(i));
      assert run[0] == a;
    }
  }

  lemma ProductiveEnabled(c: Config, answers: Answers, s: State, a: Action)
    requires Productive(c, answers, s, a)
    ensures Enabled(c, s, a) && Calm(a)
  {
  }

  ghost predicate CanDrain(c: Config, answers: Answers, s: State) {
    exists run :: ProductiveRun(c, answers, s, run) && Legal(c, s, run) && Drained(Run(c, s, run))
  }

  /** One step on the way: it keeps what the next one needs and lowers the measure. */
  lemma DrainStep(c: Config, answers: Answers, s: State) returns (a: Action)
    requires WordHandles(c) && Staffed(c) && Steady(c, s) && NothingStranded(c, s) && !Drained(s)
    requires forall h, id :: AllFinished(answers(h, id))
    ensures Productive(c, answers, s, a) && Enabled(c, s, a)
    ensures Steady(c, Apply(c, s, a)) && NothingStranded(c, Apply(c, s, a)) && Less(c, Apply(c, s, a), s)
  {
    hide Steady, Enabled, Apply, Productive, NothingStranded, Drained, AllFinished, Less, WordHandles, Staffed;
    a := SomethingToDo(c, answers, s);
    ProductiveEnabled(c, answers, s, a);
    StepKeepsSteady(c, s, a);
    StepKeepsStranded(c, s, a);
    SteadyIsInv(c, s);
    StepLowers(c, answers, s, a);
  }

  lemma {:induction false} EmptyIt(c: Config, answers: Answers, s: State) returns (run: seq<Action>)
    requires WordHandles(c) && Staffed(c) && Steady(c, s) && NothingStranded(c, s)
    requires forall h, id :: AllFinished(answers(h, id))
    ensures ProductiveRun(c, answers, s, run) && Legal(c, s, run) && Drained(Run(c, s, run))
    decreases |s.front.needsTesting.Keys|, IngestRank(s.front.ingest), |s.front.spawned|,
              Sum(s.front.git, GitRank(|c.remotes|)),
              |s.ci.queue|, Sum(s.ci.jobs, JobRank()), Sum(s.ci.watchers, OpenRank()), Sum(s.ci.watchers, ReportRank()),
              |s.out.dispatch.Keys|, PostRank(s.out)
  {
    hide Steady, Enabled, Apply, Productive, NothingStranded, Drained, AllFinished;
    hide Sum, IngestRank, PostRank, GitRank, JobRank, OpenRank, ReportRank, WordHandles, Staffed;
    if Drained(s) {
      run := [];
    } else {
      var a := DrainStep(c, answers, s);
      var rest := EmptyIt(c, answers, Apply(c, s, a));
      run := [a] + rest;
      assert run[0] == a && run[1..] == rest;
    }
  }

  lemma SteadyIsInv(c: Config, s: State)
    requires Steady(c, s)
    ensures Inv(c, s) && Intake.Inv(c, s.front)
  {
  }

  lemma {:induction false} CalmRunKeepsStranded(c: Config, s: State, run: seq<Action>)
    requires WordHandles(c) && Steady(c, s) && Legal(c, s, run)
    requires forall a <- run :: Calm(a)
    ensures NothingStranded(c, Run(c, s, run)) <==> NothingStranded(c, s)
    decreases |run|
  {
    hide Steady, Enabled, Apply, NothingStranded, Calm;
    if run != [] {
      assert run[0] in run && forall a <- run[1..] :: a in run;
      StepKeepsSteady(c, s, run[0]);
      StepKeepsStranded(c, s, run[0]);
      CalmRunKeepsStranded(c, Apply(c, s, run[0]), run[1..]);
    }
  }

  lemma {:induction false} ProductiveRunIsCalm(c: Config, answers: Answers, s: State, run: seq<Action>)
    requires ProductiveRun(c, answers, s, run)
    ensures forall a <- run :: Calm(a)
    decreases |run|
  {
    if run != [] {
      ProductiveRunIsCalm(c, answers, Apply(c, s, run[0]), run[1..]);
      assert run == [run[0]] + run[1..];
    }
  }

  /** No deadlock: unless everything is drained or an entry is stranded, some actor has a
      productive step. */
  lemma NoDeadlock(c: Config, answers: Answers, run: seq<Action>)
    requires Sighted(c) && WordHandles(c) && Staffed(c) && Legal(c, Init(c), run)
    requires forall h, id :: AllFinished(answers(h, id))
    ensures var s := Run(c, Init(c), run);
            NothingStranded(c, s) && !Drained(s) ==> exists a :: Productive(c, answers, s, a)
  {
    hide Legal, Run, Steady, NothingStranded, Drained, AllFinished, Productive;
    ReachedSteady(c, run);
    var s := Run(c, Init(c), run);
    if NothingStranded(c, s) && !Drained(s) {
      var a := SomethingToDo(c, answers, s);
    }
  }

  // ---- a stranded entry is there for good ----

  lemma SomethingStranded(c: Config, s: State)
    ensures NothingStranded(c, s) <==> forall e :: !Stranded(c, s, e)
  {
    hide HasTask, HasThread, Tended;
    if forall e :: !Stranded(c, s, e) {
      forall id | id in s.front.awaiting ensures HasTask(s.front, id) {
        assert !Stranded(c, s, AtAwaiting(id));
      }
      forall w, id | (w, id) in s.front.onWorker ensures HasThread(s.front, w, id) {
        assert !Stranded(c, s, AtWorker(w, id));
      }
      forall x | x in s.ci.working ensures Tended(c, s.ci, x) {
        assert !Stranded(c, s, AtRunner(x.0, x.1));
      }
    }
  }

  lemma BonedStrands(f: Intake.Front, w: nat, id: Id)
    requires w < |f.git|
    ensures var f' := f.(git := f.git[w := Intake.Idle]);
            && (HasTask(f', id) ==> HasTask(f, id))
            && forall v: nat :: HasThread(f', v, id) ==> HasThread(f, v, id)
  {
    var git' := f.git[w := Intake.Idle];
    if v: nat :| v < |git'| && git'[v].Waits() && git'[v].id == id {
      assert git'[v] == f.git[v];
    }
  }

  lemma CrashHasNobody(f: Intake.Front, s: Ci.Ci, c: Config, id: Id)
    ensures !HasTask(Intake.Crash(f), id) && forall w: nat :: !HasThread(Intake.Crash(f), w, id)
    ensures forall h :: !HasWatcher(c, Ci.Crash(s).jobs, Ci.Crash(s).watchers, (h, id))
  {
  }

  /** The front, scans and tasks that give up included. */
  lemma FrontKeepsStrandedEntry(c: Config, s: State, b: Intake.Action, e: Entry)
    requires Steady(c, s) && Enabled(c, s, Front(b)) && Stranded(c, s, e)
    ensures Stranded(c, Apply(c, s, Front(b)), e)
  {
    hide Steady, Intake.Inv, Inv, Intake.Enabled, Intake.Apply, Intake.Output, HasTask, HasThread, Tended;
    if e.AtRunner? {
      FrontKeepsTended(c, s, b, (e.h, e.id));
    } else {
      SteadyIsInv(c, s);
      GitSideStranded(c, s.front, b, e);
    }
  }

  ghost predicate StrandedInGit(f: Intake.Front, e: Entry)
    requires !e.AtRunner?
  {
    if e.AtAwaiting? then e.id in f.awaiting && !HasTask(f, e.id)
    else (e.w, e.id) in f.onWorker && !HasThread(f, e.w, e.id)
  }

  lemma GitSideStranded(c: Config, f: Intake.Front, b: Intake.Action, e: Entry)
    requires !e.AtRunner? && Intake.Inv(c, f) && Intake.Enabled(c, f, b) && StrandedInGit(f, e)
    ensures StrandedInGit(Intake.Apply(c, f, b), e)
  {
    hide Intake.Inv, HasTask, HasThread;
    if b.GitBoned? {
      BonedStrands(f, b.w, e.id);
    } else {
      hide Intake.Enabled, Intake.Apply;
      FrontStep(c, f, b, if e.AtWorker? then e.w else 0, e.id);
    }
  }

  lemma StepKeepsStrandedEntry(c: Config, s: State, a: Action, e: Entry)
    requires Steady(c, s) && Enabled(c, s, a) && Stranded(c, s, e)
    ensures Stranded(c, Apply(c, s, a), e)
  {
    match a
    case Front(b) => FrontKeepsStrandedEntry(c, s, b, e);
    case Runner(b) => RunnerKeepsStrandedEntry(c, s, b, e);
    case Dispatcher(_) =>
      hide Steady, Stranded, Outbox.Apply;
      SameEntries(c, s, Apply(c, s, a), e);
    case Crash => CrashKeepsStrandedEntry(c, s, e);
  }

  lemma SameEntries(c: Config, s: State, s': State, e: Entry)
    requires s'.front == s.front && s'.ci == s.ci && Stranded(c, s, e)
    ensures Stranded(c, s', e)
  {
  }

  lemma CrashKeepsStrandedEntry(c: Config, s: State, e: Entry)
    requires Stranded(c, s, e)
    ensures Stranded(c, Apply(c, s, Crash), e)
  {
    CrashHasNobody(s.front, s.ci, c, e.id);
    hide HasTask, HasThread, HasWatcher;
  }

  lemma RunnerKeepsStrandedEntry(c: Config, s: State, b: Ci.Action, e: Entry)
    requires Steady(c, s) && Enabled(c, s, Runner(b)) && Stranded(c, s, e)
    ensures Stranded(c, Apply(c, s, Runner(b)), e)
  {
    var s' := Apply(c, s, Runner(b));
    assert s'.front == s.front && s'.ci == Ci.Apply(c, s.ci, b) && Ci.JobsArrived(c, s.ci.jobs, s.ci.arrived);
    hide HasTask, HasThread, Tended, Steady, Ci.Apply, Ci.Enabled, Ci.JobsArrived, Apply;
    if e.AtRunner? {
      WatcherStep(c, s.ci, b, (e.h, e.id));
    }
  }

  lemma {:induction false} RunKeepsStrandedEntry(c: Config, s: State, run: seq<Action>, e: Entry)
    requires WordHandles(c) && Steady(c, s) && Legal(c, s, run) && Stranded(c, s, e)
    ensures Stranded(c, Run(c, s, run), e)
    decreases |run|
  {
    hide Steady, Enabled, Apply, Stranded;
    if run != [] {
      StepKeepsStrandedEntry(c, s, run[0], e);
      StepKeepsSteady(c, s, run[0]);
      RunKeepsStrandedEntry(c, Apply(c, s, run[0]), run[1..], e);
    }
  }

  /** A stranded entry stays stranded over every continuation: restarts, new series, further
      answers of the runners and failures included. */
  lemma StrandedForever(c: Config, run: seq<Action>, more: seq<Action>, e: Entry)
    requires Sighted(c) && WordHandles(c) && Legal(c, Init(c), run) && Legal(c, Run(c, Init(c), run), more)
    requires Stranded(c, Run(c, Init(c), run), e)
    ensures Stranded(c, Run(c, Run(c, Init(c), run), more), e)
    ensures !Drained(Run(c, Run(c, Init(c), run), more))
  {
    hide Legal, Run, Steady, Stranded, Drained;
    ReachedSteady(c, run);
    RunKeepsStrandedEntry(c, Run(c, Init(c), run), more, e);
    var end := Run(c, Run(c, Init(c), run), more);
    if Drained(end) {
      DrainedIsTended(c, end);
      SomethingStranded(c, end);
    }
  }

  /** Some continuation, of whatever kind, empties the trees. */
  ghost predicate CanEverDrain(c: Config, s: State) {
    exists more :: Legal(c, s, more) && Drained(Run(c, s, more))
  }

  /** The exact condition: the trees can be emptied, by productive steps or in any other way, if
      and only if no entry is stranded. */
  lemma DrainsIffNothingStranded(c: Config, answers: Answers, run: seq<Action>)
    requires Sighted(c) && WordHandles(c) && Staffed(c) && Legal(c, Init(c), run)
    requires forall h, id :: AllFinished(answers(h, id))
    ensures CanDrain(c, answers, Run(c, Init(c), run)) <==> NothingStranded(c, Run(c, Init(c), run))
    ensures CanEverDrain(c, Run(c, Init(c), run)) <==> NothingStranded(c, Run(c, Init(c), run))
  {
    var s := Run(c, Init(c), run);
    if NothingStranded(c, s) {
      hide Legal, Run, Steady, NothingStranded, AllFinished, ProductiveRun;
      ReachedSteady(c, run);
      var more := EmptyIt(c, answers, s);
    } else {
      hide Legal, Run, Stranded, NothingStranded, AllFinished, ProductiveRun;
      StrandedNeverDrains(c, run);
    }
  }

  lemma StrandedNeverDrains(c: Config, run: seq<Action>)
    requires Sighted(c) && WordHandles(c) && Legal(c, Init(c), run) && !NothingStranded(c, Run(c, Init(c), run))
    ensures !CanEverDrain(c, Run(c, Init(c), run))
  {
    hide Legal, Run, Stranded, NothingStranded, Drained;
    var s := Run(c, Init(c), run);
    SomethingStranded(c, s);
    var e :| Stranded(c, s, e);
    forall more | Legal(c, s, more) ensures !Drained(Run(c, s, more)) {
      StrandedForever(c, run, more, e);
    }
  }

  lemma NothingStrandedAtFirst(c: Config)
    ensures NothingStranded(c, Init(c))
  {
  }

  /** Without a crash or a task that gave up, the pipeline can always be emptied. */
  lemma CalmRunsDrain(c: Config, answers: Answers, run: seq<Action>)
    requires Sighted(c) && WordHandles(c) && Staffed(c) && Legal(c, Init(c), run)
    requires forall a <- run :: Calm(a)
    requires forall h, id :: AllFinished(answers(h, id))
    ensures CanDrain(c, answers, Run(c, Init(c), run))
  {
    hide AllFinished, CanDrain, Legal, Run, Steady, NothingStranded;
    NothingStrandedAtFirst(c);
    InitSteady(c);
    ReachedSteady(c, run);
    CalmRunKeepsStranded(c, Init(c), run);
    DrainsIffNothingStranded(c, answers, run);
  }

  /** From a state where nothing is stranded no schedule can fail: whatever productive steps were
      taken, once there are none left everything is drained. And only from such a state. */
  lemma MaximalRunEmptiesIff(c: Config, answers: Answers, run: seq<Action>, more: seq<Action>)
    requires Sighted(c) && WordHandles(c) && Staffed(c) && Legal(c, Init(c), run)
    requires forall h, id :: AllFinished(answers(h, id))
    requires ProductiveRun(c, answers, Run(c, Init(c), run), more) && Legal(c, Run(c, Init(c), run), more)
    requires forall a :: !Productive(c, answers, Run(c, Run(c, Init(c), run), more), a)
    ensures Drained(Run(c, Run(c, Init(c), run), more)) <==> NothingStranded(c, Run(c, Init(c), run))
  {
    hide Legal, Run, Steady, NothingStranded, Drained, AllFinished, Productive;
    ReachedSteady(c, run);
    var s := Run(c, Init(c), run);
    var end := Run(c, s, more);
    ProductiveRunIsCalm(c, answers, s, more);
    CalmRunKeepsStranded(c, s, more);
    RunAppend(c, Init(c), run, more);
    if NothingStranded(c, s) {
      NoDeadlock(c, answers, run + more);
    } else if Drained(end) {
      DrainedIsTended(c, end);
    }
  }

  lemma DrainedIsTended(c: Config, s: State)
    requires Drained(s)
    ensures NothingStranded(c, s)
  {
  }

  /** After any run without crash and without a task that gave up, every schedule empties the
      pipeline: its productive steps run out, and when they have, the pipeline is empty. */
  lemma CalmRunsEmpty(c: Config, answers: Answers, run: seq<Action>, more: seq<Action>)
    requires Sighted(c) && WordHandles(c) && Staffed(c) && Legal(c, Init(c), run)
    requires forall a <- run :: Calm(a)
    requires forall h, id :: AllFinished(answers(h, id))
    requires ProductiveRun(c, answers, Run(c, Init(c), run), more) && Legal(c, Run(c, Init(c), run), more)
    requires forall a :: !Productive(c, answers, Run(c, Run(c, Init(c), run), more), a)
    ensures Drained(Run(c, Run(c, Init(c), run), more))
  {
    hide AllFinished, Drained, Legal, Run, Productive, Steady, NothingStranded;
    NothingStrandedAtFirst(c);
    InitSteady(c);
    CalmRunKeepsStranded(c, Init(c), run);
    MaximalRunEmptiesIff(c, answers, run, more);
  }

  /** After a crash between the move out of "needs testing" and the spawn no continuation at all
      empties the pipeline: the task of the series was only in memory. */
  lemma CrashAfterMoveStrands(c: Config, run: seq<Action>)
    requires Sighted(c) && WordHandles(c) && Legal(c, Init(c), run) && Run(c, Init(c), run).front.ingest.Moved?
    ensures Legal(c, Init(c), run + [Crash]) && !CanEverDrain(c, Run(c, Init(c), run + [Crash]))
  {
    hide CanEverDrain, Legal, Run, Steady, Intake.Inv;
    ReachedFront(c, run);
    var f := Run(c, Init(c), run).front;
    Intake.IngestFacts(c, f);
    Reach.OneMore(c, run, Crash);
    assert f.ingest.id in f.awaiting && !HasTask(Intake.Crash(f), f.ingest.id);
    StrandedNeverDrains(c, run + [Crash]);
  }

  /** And that can happen to any series. */
  lemma CrashCanStrand(c: Config, id: Id) returns (before: seq<Action>)
    requires Sighted(c) && WordHandles(c) && c.patches(id) != []
    ensures Legal(c, Init(c), before) && Run(c, Init(c), before).front.ingest == Intake.Moved(id)
    ensures Legal(c, Init(c), before + [Crash]) && !CanEverDrain(c, Run(c, Init(c), before + [Crash]))
  {
    hide CanEverDrain;
    Reach.Start(c, id);
    hide Legal, Run;
    var f;
    before, f := Reach.BringMoved(c, [], id);
    CrashAfterMoveStrands(c, before);
  }
}
