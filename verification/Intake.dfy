/** From Patchwork to the runner queues: the watchcat, the ingest loop and the git workers,
    as a labelled transition system over the trees they share. Every place where another
    actor can run in between is a program counter. A tree named after a worker is the part of
    `onWorker` whose keys start with that worker. */
module Intake {
  import opened Basics

  // ---- what Patchwork answers ----

  datatype Series = Series(id: Id, mbox: string, patches: seq<nat>, receivedAll: bool, receivedTotal: nat)

  datatype Patch = Patch(pullUrl: Option<string>, state: string)

  predicate ActionRequired(patch: Patch) {
    patch.pullUrl.None? && (patch.state == "new" || patch.state == "under-review")
  }

  /** What a scan is told about one series: whether the look-up in "seen by watchcat" succeeded,
      and what fetching the last patch gave. */
  datatype Answer = Answer(lookup: bool, patch: Option<Patch>)

  /** The four filters of a scan. A look-up that fails counts as not seen. */
  predicate Wanted(seen: set<Id>, series: Series, answer: Answer) {
    && series.receivedAll
    && series.receivedTotal > 0
    && (answer.lookup ==> series.id !in seen)
    && series.patches != []
    && answer.patch.Some?
    && ActionRequired(answer.patch.value)
  }

  /** What the filters are for: a complete series whose last patch is open and unhandled is taken up
      unless a look-up that succeeds finds it, and nothing else is. */
  lemma OnlyOpenSeriesWanted(seen: set<Id>, series: Series, lookup: bool, patch: Option<Patch>)
    requires series.receivedAll && series.receivedTotal > 0 && series.patches != []
    ensures Wanted(seen, series, Answer(lookup, patch)) <==>
              && patch in {Some(Patch(None, "new")), Some(Patch(None, "under-review"))}
              && (series.id !in seen || !lookup)
    ensures !Wanted(seen, series.(receivedAll := false), Answer(lookup, patch))
    ensures !Wanted(seen, series.(receivedTotal := 0), Answer(lookup, patch))
    ensures !Wanted(seen, series.(patches := []), Answer(lookup, patch))
  {
  }

  // ---- program counters ----

  /** A listed series is handled by one parallel task of the scan. */
  datatype CatPc = Listed(series: Series) | Passed(mbox: string) | Marked(mbox: string)

  /** Between two keys, holding a key the iterator yielded, or about to spawn the key it moved. */
  datatype IngestPc = Resting | Picked(id: Id) | Moved(id: Id)

  /** A git thread: `Queueing` waits for the worker tree to be empty, `Prep` is the part of
      `do_work` before the remotes, `Push(id, j)` is about to push to remote `j`. */
  datatype GitPc =
    | Idle
    | Queueing(id: Id)
    | Clear(id: Id)
    | Prep(id: Id)
    | Push(id: Id, j: nat)
    | Pushed(id: Id, j: nat)
    | Succeeded(id: Id)
    | Failing(id: Id)
  {
    /** The task has not taken its series out of "awaiting git worker" yet. */
    predicate Waits() { Queueing? || Clear? }

    /** The task owns an entry of its worker tree. */
    predicate Works() { !Idle? && !Waits() }
  }

  // ---- the abstract life of one series ----

  /** `done` counts the remotes whose runner queue got the series. */
  datatype Stage =
    | Seen
    | Needs
    | Awaiting
    | Worker(w: nat, done: nat)
    | GitFailed(done: nat)
    | GitDone

  function RemotesDone(remotes: seq<Handle>, stage: Stage): nat {
    match stage
    case Worker(_, done) => done
    case GitFailed(done) => done
    case GitDone => |remotes|
    case _ => 0
  }

  /** The per-series state machine the trees implement; `None` is a series never seen. */
  predicate StageStep(before: Option<Stage>, after: Option<Stage>, remotes: nat) {
    match (before, after)
    case (None, Some(Seen)) => true
    case (Some(Seen), Some(Needs)) => true
    case (Some(Needs), Some(Awaiting)) => true
    case (Some(Awaiting), Some(Worker(_, 0))) => true
    case (Some(Worker(w, d)), Some(Worker(w', d'))) => w' == w && d' == d + 1 <= remotes
    case (Some(Worker(_, d)), Some(GitFailed(d'))) => d' == d && (d < remotes || d == 0)
    case (Some(Worker(_, d)), Some(GitDone)) => d == remotes
    case _ => false
  }

  function StageOf(f: Front, id: Id): Option<Stage> {
    if id in f.stage then Some(f.stage[id]) else None
  }

  // ---- state ----

  datatype Front = Front(
    // trees, which survive a crash
    seen: set<Id>,
    needsTesting: map<Id, string>,
    awaiting: map<Id, string>,
    onWorker: map<(nat, Id), string>,
    failures: map<Id, string>,
    // what a crash wipes
    cat: map<Id, CatPc>,
    ingest: IngestPc,
    spawned: multiset<Id>,
    git: seq<GitPc>,
    // history: written by the steps, never read by a guard
    passed: set<Id>,                 // passed the watchcat's filters
    entered: multiset<Id>,           // insertions into "needs testing"
    mbox: map<Id, string>,           // value of the last such insertion
    stage: map<Id, Stage>,
    pushed: set<(Handle, Id)>,       // branches pushed
    queued: multiset<(Handle, Id)>)  // insertions into runner queues

  function Init(c: Config): Front {
    Front({}, map[], map[], map[], map[], map[], Resting, multiset{}, seq(c.workers, _ => Idle),
          {}, multiset{}, map[], map[], {}, multiset{})
  }

  function Crash(f: Front): Front {
    f.(cat := map[], ingest := Resting, spawned := multiset{}, git := seq(|f.git|, _ => Idle))
  }

  datatype Action =
    | CatList(listing: map<Id, Series>)
    | CatFilter(id: Id, answer: Answer)
    | CatMark(id: Id)
    | CatEnqueue(id: Id)
    | IngestPick(id: Id)
    | IngestMove
    | IngestSpawn
    | GitStart(w: nat, id: Id)
    | GitClear(w: nat)
    | GitTake(w: nat)
    | GitReady(w: nat)
    | GitPush(w: nat)
    | GitQueue(w: nat)
    | GitOk(w: nat)
    | GitRemove(w: nat)
    | GitFail(w: nat)
    | GitFailMove(w: nat)
    | GitBoned(w: nat)

  predicate Enabled(c: Config, f: Front, a: Action) {
    match a
    // a scan starts when the previous one has returned; ids in a list are distinct
    case CatList(listing) => f.cat == map[] &&
      forall id <- listing :: listing[id].id == id && listing[id].patches == c.patches(id)
    case CatFilter(id, answer) => id in f.cat && f.cat[id].Listed? && (answer.lookup || c.lookupsFail || id !in f.seen)
    case CatMark(id) => id in f.cat && f.cat[id].Passed?
    case CatEnqueue(id) => id in f.cat && f.cat[id].Marked? && c.patches(id) != []
    case IngestPick(id) => f.ingest.Resting? && id in f.needsTesting
    case IngestMove => f.ingest.Picked? && f.ingest.id in f.needsTesting
    case IngestSpawn => f.ingest.Moved?
    case GitStart(w, id) => w < |f.git| && f.git[w].Idle? && id in f.spawned
    case GitClear(w) => w < |f.git| && f.git[w].Queueing? && forall k <- f.onWorker :: k.0 != w
    case GitTake(w) => w < |f.git| && f.git[w].Clear? && f.git[w].id in f.awaiting
    case GitReady(w) => w < |f.git| && f.git[w].Prep? && (w, f.git[w].id) in f.onWorker
    case GitPush(w) => w < |f.git| && f.git[w].Push? && f.git[w].j < |c.remotes|
    case GitQueue(w) => w < |f.git| && f.git[w].Pushed? && f.git[w].j < |c.remotes|
    case GitOk(w) => w < |f.git| && f.git[w].Push? && f.git[w].j == |c.remotes|
    case GitRemove(w) => w < |f.git| && f.git[w].Succeeded?
    case GitFail(w) => w < |f.git| &&
      (f.git[w].Prep? || ((f.git[w].Push? || f.git[w].Pushed?) && f.git[w].j < |c.remotes|))
    case GitFailMove(w) => w < |f.git| && f.git[w].Failing? && (w, f.git[w].id) in f.onWorker
    case GitBoned(w) => w < |f.git| && !f.git[w].Idle?
  }

  /** The insertion into a runner queue, for the one action that makes it. */
  function Output(c: Config, f: Front, a: Action): Option<(Handle, Id)>
    requires Enabled(c, f, a)
  {
    if a.GitQueue? then Some((c.remotes[f.git[a.w].j], f.git[a.w].id)) else None
  }

  function Apply(c: Config, f: Front, a: Action): Front
    requires Enabled(c, f, a)
  {
    match a
    case CatList(listing) =>
      f.(cat := map id | id in listing :: Listed(listing[id]))
    case CatFilter(id, answer) =>
      var series := f.cat[id].series;
      if Wanted(f.seen, series, answer)
      then f.(cat := f.cat[id := Passed(series.mbox)], passed := f.passed + {id})
      else f.(cat := f.cat - {id})
    case CatMark(id) =>
      f.(seen := f.seen + {id}, cat := f.cat[id := Marked(f.cat[id].mbox)], stage := f.stage[id := Seen])
    case CatEnqueue(id) =>
      var mbox := f.cat[id].mbox;
      f.(needsTesting := f.needsTesting[id := mbox], cat := f.cat - {id},
         entered := f.entered + multiset{id}, mbox := f.mbox[id := mbox], stage := f.stage[id := Needs])
    case IngestPick(id) =>
      f.(ingest := Picked(id))
    case IngestMove =>
      var id := f.ingest.id;
      f.(needsTesting := f.needsTesting - {id}, awaiting := f.awaiting[id := f.needsTesting[id]],
         ingest := Moved(id), stage := f.stage[id := Awaiting])
    case IngestSpawn =>
      f.(spawned := f.spawned + multiset{f.ingest.id}, ingest := Resting)
    case GitStart(w, id) =>
      f.(spawned := f.spawned - multiset{id}, git := f.git[w := Queueing(id)])
    case GitClear(w) =>
      f.(git := f.git[w := Clear(f.git[w].id)])
    case GitTake(w) =>
      var id := f.git[w].id;
      f.(awaiting := f.awaiting - {id}, onWorker := f.onWorker[(w, id) := f.awaiting[id]],
         git := f.git[w := Prep(id)], stage := f.stage[id := Worker(w, 0)])
    case GitReady(w) =>
      f.(git := f.git[w := Push(f.git[w].id, 0)])
    case GitPush(w) =>
      var (id, j) := (f.git[w].id, f.git[w].j);
      f.(git := f.git[w := Pushed(id, j)], pushed := f.pushed + {(c.remotes[j], id)})
    case GitQueue(w) =>
      var (id, j) := (f.git[w].id, f.git[w].j);
      f.(git := f.git[w := Push(id, j + 1)], queued := f.queued + multiset{(c.remotes[j], id)},
         stage := f.stage[id := Worker(w, j + 1)])
    case GitOk(w) =>
      f.(git := f.git[w := Succeeded(f.git[w].id)])
    case GitRemove(w) =>
      var id := f.git[w].id;
      f.(onWorker := f.onWorker - {(w, id)}, git := f.git[w := Idle], stage := f.stage[id := GitDone])
    case GitFail(w) =>
      f.(git := f.git[w := Failing(f.git[w].id)])
    case GitFailMove(w) =>
      var id := f.git[w].id;
      f.(onWorker := f.onWorker - {(w, id)}, failures := f.failures[id := f.onWorker[(w, id)]],
         git := f.git[w := Idle],
         stage := f.stage[id := GitFailed(if id in f.stage then RemotesDone(c.remotes, f.stage[id]) else 0)])
    case GitBoned(w) =>
      f.(git := f.git[w := Idle])
  }

  // ---- the invariant ----

  ghost predicate SeenOk(seen: set<Id>, stage: map<Id, Stage>) {
    forall id :: id in seen <==> id in stage
  }

  /** The next four: a tree holds exactly the series the abstract map places there, each with
      the value it was given when it entered "needs testing". */
  ghost predicate NeedsOk(tree: map<Id, string>, stage: map<Id, Stage>, mbox: map<Id, string>) {
    && (forall id :: id in tree <==> id in stage && stage[id].Needs?)
    && (forall id :: id in tree ==> id in mbox && tree[id] == mbox[id])
  }

  ghost predicate AwaitingOk(tree: map<Id, string>, stage: map<Id, Stage>, mbox: map<Id, string>) {
    && (forall id :: id in tree <==> id in stage && stage[id].Awaiting?)
    && (forall id :: id in tree ==> id in mbox && tree[id] == mbox[id])
  }

  ghost predicate OnWorkerOk(tree: map<(nat, Id), string>, stage: map<Id, Stage>, mbox: map<Id, string>) {
    && (forall w, id :: (w, id) in tree <==> id in stage && stage[id].Worker? && stage[id].w == w)
    && (forall w, id :: (w, id) in tree ==> id in mbox && tree[(w, id)] == mbox[id])
  }

  ghost predicate FailuresOk(tree: map<Id, string>, stage: map<Id, Stage>, mbox: map<Id, string>) {
    && (forall id :: id in tree <==> id in stage && stage[id].GitFailed?)
    && (forall id :: id in tree ==> id in mbox && tree[id] == mbox[id])
  }

  /** A worker tree holds at most one series. */
  ghost predicate OnePerWorker(workers: nat, tree: map<(nat, Id), string>) {
    && (forall w, id :: (w, id) in tree ==> w < workers)
    && (forall w, a, b :: (w, a) in tree && (w, b) in tree ==> a == b)
  }

  ghost predicate CatOne(c: Config, id: Id, pc: CatPc, stage: map<Id, Stage>, passed: set<Id>) {
    match pc
    case Listed(series) => series.id == id && series.patches == c.patches(id)
    case Passed(_) => id !in stage && id in passed
    case Marked(_) => id in stage && stage[id].Seen?
  }

  ghost predicate CatOk(c: Config, cat: map<Id, CatPc>, stage: map<Id, Stage>, passed: set<Id>) {
    forall id :: id in cat ==> CatOne(c, id, cat[id], stage, passed)
  }

  ghost predicate PassedOk(c: Config, stage: map<Id, Stage>, passed: set<Id>) {
    && (forall id :: id in passed ==> c.patches(id) != [])
    && (forall id :: id in stage ==> id in passed)
  }

  ghost predicate NoneWaitsFor(git: seq<GitPc>, id: Id) {
    forall w :: 0 <= w < |git| && git[w].Waits() ==> git[w].id != id
  }

  /** Every awaiting series has at most one task: with the ingest loop, in the pool, or on a thread. */
  ghost predicate IngestOk(ingest: IngestPc, needs: map<Id, string>, awaiting: map<Id, string>,
                           spawned: multiset<Id>, git: seq<GitPc>) {
    match ingest
    case Resting => true
    case Picked(id) => id in needs
    case Moved(id) => id in awaiting && id !in spawned && NoneWaitsFor(git, id)
  }

  ghost predicate SpawnedOk(spawned: multiset<Id>, awaiting: map<Id, string>, git: seq<GitPc>) {
    && (forall id :: spawned[id] <= 1)
    && (forall id :: id in spawned ==> id in awaiting && NoneWaitsFor(git, id))
  }

  ghost predicate WaitersOk(git: seq<GitPc>, awaiting: map<Id, string>, tree: map<(nat, Id), string>) {
    && (forall w :: 0 <= w < |git| && git[w].Waits() ==> git[w].id in awaiting)
    && (forall w, w' :: 0 <= w < w' < |git| && git[w].Waits() && git[w'].Waits() ==> git[w].id != git[w'].id)
    && (forall w, id :: 0 <= w < |git| && git[w].Clear? ==> (w, id) !in tree)
  }

  /** A working thread's series is in its tree, with as many queues served as the loop says. */
  ghost predicate WorkOk(remotes: seq<Handle>, w: nat, pc: GitPc, stage: map<Id, Stage>, pushed: set<(Handle, Id)>) {
    match pc
    case Prep(id) => id in stage && stage[id] == Worker(w, 0)
    case Push(id, j) => id in stage && stage[id] == Worker(w, j) && j <= |remotes|
    case Pushed(id, j) => id in stage && stage[id] == Worker(w, j) && j < |remotes| && (remotes[j], id) in pushed
    case Succeeded(id) => id in stage && stage[id] == Worker(w, |remotes|)
    case Failing(id) => id in stage && stage[id].Worker? && stage[id].w == w && FailsAt(remotes, stage[id].done)
    case _ => true
  }

  /** Where `do_work` can return an error: before the loop, or at a remote. */
  predicate FailsAt(remotes: seq<Handle>, done: nat) {
    done < |remotes| || done == 0
  }

  ghost predicate WorkersOk(remotes: seq<Handle>, git: seq<GitPc>, stage: map<Id, Stage>, pushed: set<(Handle, Id)>) {
    forall w :: 0 <= w < |git| ==> WorkOk(remotes, w, git[w], stage, pushed)
  }

  ghost predicate EnteredOk(entered: multiset<Id>, stage: map<Id, Stage>, mbox: map<Id, string>) {
    && (forall id :: entered[id] == if id in stage && !stage[id].Seen? then 1 else 0)
    && (forall id :: id in mbox <==> id in entered)
  }

  /** The runner queues got a series once for each remote counted in its stage. */
  ghost predicate QueuedOk(c: Config, queued: multiset<(Handle, Id)>, stage: map<Id, Stage>) {
    && (forall id :: id in stage ==> RemotesDone(c.remotes, stage[id]) <= |c.remotes|)
    && (forall h, id :: queued[(h, id)] ==
          if id in stage then multiset(c.remotes[..RemotesDone(c.remotes, stage[id])])[h] else 0)
    && (forall id :: id in stage && stage[id].GitFailed? ==> FailsAt(c.remotes, stage[id].done))
  }

  ghost predicate PushedOk(queued: multiset<(Handle, Id)>, pushed: set<(Handle, Id)>) {
    forall x :: x in queued ==> x in pushed
  }

  /** What holds while no look-up of a seen series fails. */
  ghost predicate Inv(c: Config, f: Front) {
    && Sighted(c)
    && |f.git| == c.workers
    && SeenOk(f.seen, f.stage)
    && NeedsOk(f.needsTesting, f.stage, f.mbox)
    && AwaitingOk(f.awaiting, f.stage, f.mbox)
    && OnWorkerOk(f.onWorker, f.stage, f.mbox)
    && FailuresOk(f.failures, f.stage, f.mbox)
    && OnePerWorker(c.workers, f.onWorker)
    && CatOk(c, f.cat, f.stage, f.passed)
    && PassedOk(c, f.stage, f.passed)
    && IngestOk(f.ingest, f.needsTesting, f.awaiting, f.spawned, f.git)
    && SpawnedOk(f.spawned, f.awaiting, f.git)
    && WaitersOk(f.git, f.awaiting, f.onWorker)
    && WorkersOk(c.remotes, f.git, f.stage, f.pushed)
    && EnteredOk(f.entered, f.stage, f.mbox)
    && QueuedOk(c, f.queued, f.stage)
    && PushedOk(f.queued, f.pushed)
  }

  lemma InitInv(c: Config)
    requires Sighted(c)
    ensures Inv(c, Init(c))
  {
  }

  lemma CrashKeepsInv(c: Config, f: Front)
    requires Inv(c, f)
    ensures Inv(c, Crash(f))
  {
    hide SeenOk, NeedsOk, AwaitingOk, OnWorkerOk, FailuresOk, OnePerWorker, PassedOk, EnteredOk, QueuedOk, PushedOk;
  }

  // ---- what holds even if look-ups fail ----

  ghost predicate RootedCat(c: Config, cat: map<Id, CatPc>, passed: set<Id>, seen: set<Id>) {
    forall id :: id in cat ==>
      match cat[id]
      case Listed(series) => series.id == id && series.patches == c.patches(id)
      case Passed(_) => id in passed
      case Marked(_) => id in seen
  }

  ghost predicate RootedTrees(needs: map<Id, string>, awaiting: map<Id, string>, failures: map<Id, string>,
                              onWorker: map<(nat, Id), string>, seen: set<Id>) {
    && (forall id :: id in needs || id in awaiting || id in failures ==> id in seen)
    && (forall w, id :: (w, id) in onWorker ==> id in seen)
  }

  ghost predicate RootedTasks(ingest: IngestPc, spawned: multiset<Id>, seen: set<Id>) {
    && (!ingest.Resting? ==> ingest.id in seen)
    && (forall id :: id in spawned ==> id in seen)
  }

  ghost predicate RootedThreads(c: Config, git: seq<GitPc>, seen: set<Id>, pushed: set<(Handle, Id)>) {
    && |git| == c.workers
    && (forall w :: 0 <= w < |git| ==> RootedPc(c.remotes, git[w], seen, pushed))
  }

  ghost predicate RootedPc(remotes: seq<Handle>, pc: GitPc, seen: set<Id>, pushed: set<(Handle, Id)>) {
    && (!pc.Idle? ==> pc.id in seen)
    && (pc.Pushed? ==> pc.j < |remotes| && (remotes[pc.j], pc.id) in pushed)
  }

  ghost predicate RootedQueues(c: Config, queued: multiset<(Handle, Id)>, seen: set<Id>, pushed: set<(Handle, Id)>) {
    forall h, id :: (h, id) in queued ==> (h, id) in pushed && h in c.remotes && id in seen
  }

  ghost predicate RootedSeen(c: Config, passed: set<Id>, seen: set<Id>) {
    && (forall id :: id in passed ==> c.patches(id) != [])
    && (forall id :: id in seen ==> id in passed)
  }

  /** Whatever the look-ups give: everything under way was marked as seen, which needs passing the
      filters, and what was queued at a runner was pushed. */
  ghost predicate Rooted(c: Config, f: Front) {
    && RootedSeen(c, f.passed, f.seen)
    && RootedCat(c, f.cat, f.passed, f.seen)
    && RootedTrees(f.needsTesting, f.awaiting, f.failures, f.onWorker, f.seen)
    && RootedTasks(f.ingest, f.spawned, f.seen)
    && RootedThreads(c, f.git, f.seen, f.pushed)
    && RootedQueues(c, f.queued, f.seen, f.pushed)
  }

  lemma InitRooted(c: Config)
    ensures Rooted(c, Init(c))
  {
  }

  lemma CrashKeepsRooted(c: Config, f: Front)
    requires Rooted(c, f)
    ensures Rooted(c, Crash(f))
  {
  }

  lemma ListKeepsRooted(c: Config, f: Front, a: Action)
    requires a.CatList?
    requires Rooted(c, f) && Enabled(c, f, a)
    ensures Rooted(c, Apply(c, f, a))
  {
    hide RootedTrees, RootedTasks, RootedThreads, RootedQueues, RootedSeen;
  }

  lemma FilterKeepsRooted(c: Config, f: Front, a: Action)
    requires a.CatFilter?
    requires Rooted(c, f) && Enabled(c, f, a)
    ensures Rooted(c, Apply(c, f, a))
  {
    hide RootedTrees, RootedTasks, RootedThreads, RootedQueues;
    var series := f.cat[a.id].series;
    hide Enabled;
    if Wanted(f.seen, series, a.answer) {
      assert Apply(c, f, a) == f.(cat := f.cat[a.id := Passed(series.mbox)], passed := f.passed + {a.id});
    } else {
      assert Apply(c, f, a) == f.(cat := f.cat - {a.id});
    }
    hide Apply;
  }

  lemma MarkKeepsRooted(c: Config, f: Front, a: Action)
    requires a.CatMark?
    requires Rooted(c, f) && Enabled(c, f, a)
    ensures Rooted(c, Apply(c, f, a))
  {
  }

  lemma EnqueueKeepsRooted(c: Config, f: Front, a: Action)
    requires a.CatEnqueue?
    requires Rooted(c, f) && Enabled(c, f, a)
    ensures Rooted(c, Apply(c, f, a))
  {
    hide RootedTasks, RootedThreads, RootedQueues, RootedSeen;
  }

  lemma IngestKeepsRooted(c: Config, f: Front, a: Action)
    requires a.IngestPick? || a.IngestMove? || a.IngestSpawn?
    requires Rooted(c, f) && Enabled(c, f, a)
    ensures Rooted(c, Apply(c, f, a))
  {
    hide RootedCat, RootedThreads, RootedQueues, RootedSeen;
  }

  lemma GitPushKeepsRooted(c: Config, f: Front, a: Action)
    requires a.GitReady? || a.GitPush? || a.GitQueue? || a.GitOk?
    requires Rooted(c, f) && Enabled(c, f, a)
    ensures Rooted(c, Apply(c, f, a))
  {
    hide RootedCat, RootedTrees, RootedTasks, RootedSeen;
  }

  lemma GitMoveKeepsRooted(c: Config, f: Front, a: Action)
    requires a.GitStart? || a.GitClear? || a.GitTake? || a.GitRemove? || a.GitFail? || a.GitFailMove? || a.GitBoned?
    requires Rooted(c, f) && Enabled(c, f, a)
    ensures Rooted(c, Apply(c, f, a))
  {
    hide RootedCat, RootedQueues, RootedSeen;
  }

  lemma StepKeepsRooted(c: Config, f: Front, a: Action)
    requires Rooted(c, f) && Enabled(c, f, a)
    ensures Rooted(c, Apply(c, f, a))
  {
    hide Rooted, Enabled, Apply;
    match a
    case CatList(_) => ListKeepsRooted(c, f, a);
    case CatFilter(_, _) => FilterKeepsRooted(c, f, a);
    case CatMark(_) => MarkKeepsRooted(c, f, a);
    case CatEnqueue(_) => EnqueueKeepsRooted(c, f, a);
    case IngestPick(_) => IngestKeepsRooted(c, f, a);
    case IngestMove => IngestKeepsRooted(c, f, a);
    case IngestSpawn => IngestKeepsRooted(c, f, a);
    case GitReady(_) => GitPushKeepsRooted(c, f, a);
    case GitPush(_) => GitPushKeepsRooted(c, f, a);
    case GitQueue(_) => GitPushKeepsRooted(c, f, a);
    case GitOk(_) => GitPushKeepsRooted(c, f, a);
    case _ => GitMoveKeepsRooted(c, f, a);
  }

  // ---- frames: the stage of one series changes ----

  lemma NeedsFrame(t: map<Id, string>, t': map<Id, string>, stage: map<Id, Stage>, mbox: map<Id, string>, id: Id,
                   x: Stage)
    requires NeedsOk(t, stage, mbox)
    requires t' - {id} == t - {id} && (id in t' <==> x.Needs?)
    requires id in t' ==> id in mbox && t'[id] == mbox[id]
    ensures NeedsOk(t', stage[id := x], mbox)
  {
    assert forall k :: k != id ==> (k in t' <==> k in t' - {id}) && (k in t <==> k in t - {id});
    assert forall k :: k in t' - {id} ==> t'[k] == (t' - {id})[k] == (t - {id})[k] == t[k];
  }

  lemma AwaitingFrame(t: map<Id, string>, t': map<Id, string>, stage: map<Id, Stage>, mbox: map<Id, string>, id: Id,
                      x: Stage)
    requires AwaitingOk(t, stage, mbox)
    requires t' - {id} == t - {id} && (id in t' <==> x.Awaiting?)
    requires id in t' ==> id in mbox && t'[id] == mbox[id]
    ensures AwaitingOk(t', stage[id := x], mbox)
  {
    assert forall k :: k != id ==> (k in t' <==> k in t' - {id}) && (k in t <==> k in t - {id});
    assert forall k :: k in t' - {id} ==> t'[k] == (t' - {id})[k] == (t - {id})[k] == t[k];
  }

  lemma FailuresFrame(t: map<Id, string>, t': map<Id, string>, stage: map<Id, Stage>, mbox: map<Id, string>, id: Id,
                      x: Stage)
    requires FailuresOk(t, stage, mbox)
    requires t' - {id} == t - {id} && (id in t' <==> x.GitFailed?)
    requires id in t' ==> id in mbox && t'[id] == mbox[id]
    ensures FailuresOk(t', stage[id := x], mbox)
  {
    assert forall k :: k != id ==> (k in t' <==> k in t' - {id}) && (k in t <==> k in t - {id});
    assert forall k :: k in t' - {id} ==> t'[k] == (t' - {id})[k] == (t - {id})[k] == t[k];
  }

  /** The series keeps its worker, or has none before or none after. */
  lemma OnWorkerFrame(t: map<(nat, Id), string>, t': map<(nat, Id), string>, stage: map<Id, Stage>,
                      mbox: map<Id, string>, w: nat, id: Id, x: Stage)
    requires OnWorkerOk(t, stage, mbox)
    requires t' - {(w, id)} == t - {(w, id)}
    requires id in stage && stage[id].Worker? ==> stage[id].w == w
    requires x.Worker? ==> x.w == w
    requires (w, id) in t' <==> x.Worker?
    requires (w, id) in t' ==> id in mbox && t'[(w, id)] == mbox[id]
    ensures OnWorkerOk(t', stage[id := x], mbox)
  {
    var k := (w, id);
    forall v, a
      ensures (v, a) in t' <==> a in stage[id := x] && stage[id := x][a].Worker? && stage[id := x][a].w == v
      ensures (v, a) in t' ==> a in mbox && t'[(v, a)] == mbox[a]
    {
      if (v, a) != k {
        assert (v, a) in t' <==> (v, a) in t' - {k};
        assert (v, a) in t <==> (v, a) in t - {k};
        assert (v, a) in t' ==> t'[(v, a)] == (t' - {k})[(v, a)] == (t - {k})[(v, a)] == t[(v, a)];
      }
    }
  }

  /** Only thread `w` can be working on the series. */
  lemma WorkersFrame(remotes: seq<Handle>, git: seq<GitPc>, git': seq<GitPc>, stage: map<Id, Stage>,
                     pushed: set<(Handle, Id)>, w: nat, id: Id, x: Stage)
    requires WorkersOk(remotes, git, stage, pushed)
    requires w < |git| == |git'| && git' == git[w := git'[w]]
    requires id in stage && stage[id].Worker? ==> stage[id].w == w
    requires WorkOk(remotes, w, git'[w], stage[id := x], pushed)
    ensures WorkersOk(remotes, git', stage[id := x], pushed)
  {
    forall v | 0 <= v < |git'| ensures WorkOk(remotes, v, git'[v], stage[id := x], pushed) {
      assert WorkOk(remotes, v, git[v], stage, pushed);
      if v != w {
        assert git'[v] == git[v];
      }
    }
  }

  /** Nothing works on a series outside the worker trees. */
  lemma WorkersElsewhere(remotes: seq<Handle>, git: seq<GitPc>, stage: map<Id, Stage>, pushed: set<(Handle, Id)>,
                         id: Id, x: Stage)
    requires WorkersOk(remotes, git, stage, pushed)
    requires id in stage ==> !stage[id].Worker?
    ensures WorkersOk(remotes, git, stage[id := x], pushed)
  {
    forall v | 0 <= v < |git| ensures WorkOk(remotes, v, git[v], stage[id := x], pushed) {
      assert WorkOk(remotes, v, git[v], stage, pushed);
    }
  }

  /** What the trees say about one series. */
  lemma Located(f: Front, w: nat, id: Id)
    requires NeedsOk(f.needsTesting, f.stage, f.mbox) && AwaitingOk(f.awaiting, f.stage, f.mbox)
    requires OnWorkerOk(f.onWorker, f.stage, f.mbox) && FailuresOk(f.failures, f.stage, f.mbox)
    ensures id in f.needsTesting <==> id in f.stage && f.stage[id].Needs?
    ensures id in f.awaiting <==> id in f.stage && f.stage[id].Awaiting?
    ensures (w, id) in f.onWorker <==> id in f.stage && f.stage[id].Worker? && f.stage[id].w == w
    ensures id in f.failures <==> id in f.stage && f.stage[id].GitFailed?
    ensures id in f.needsTesting ==> id in f.mbox && f.needsTesting[id] == f.mbox[id]
    ensures id in f.awaiting ==> id in f.mbox && f.awaiting[id] == f.mbox[id]
    ensures (w, id) in f.onWorker ==> id in f.mbox && f.onWorker[(w, id)] == f.mbox[id]
    ensures id in f.failures ==> id in f.mbox && f.failures[id] == f.mbox[id]
  {
  }

  /** One series moves: the trees agree with the new map if they agree on that series. */
  lemma TreesFrame(f: Front, f': Front, w: nat, id: Id)
    requires NeedsOk(f.needsTesting, f.stage, f'.mbox) && AwaitingOk(f.awaiting, f.stage, f'.mbox)
    requires OnWorkerOk(f.onWorker, f.stage, f'.mbox) && FailuresOk(f.failures, f.stage, f'.mbox)
    requires id in f'.stage && f'.stage == f.stage[id := f'.stage[id]]
    requires f'.needsTesting - {id} == f.needsTesting - {id} && (id in f'.needsTesting <==> f'.stage[id].Needs?)
    requires id in f'.needsTesting ==> id in f'.mbox && f'.needsTesting[id] == f'.mbox[id]
    requires f'.awaiting - {id} == f.awaiting - {id} && (id in f'.awaiting <==> f'.stage[id].Awaiting?)
    requires id in f'.awaiting ==> id in f'.mbox && f'.awaiting[id] == f'.mbox[id]
    requires f'.failures - {id} == f.failures - {id} && (id in f'.failures <==> f'.stage[id].GitFailed?)
    requires id in f'.failures ==> id in f'.mbox && f'.failures[id] == f'.mbox[id]
    requires f'.onWorker - {(w, id)} == f.onWorker - {(w, id)} && ((w, id) in f'.onWorker <==> f'.stage[id].Worker?)
    requires (w, id) in f'.onWorker ==> id in f'.mbox && f'.onWorker[(w, id)] == f'.mbox[id]
    requires id in f.stage && f.stage[id].Worker? ==> f.stage[id].w == w
    requires f'.stage[id].Worker? ==> f'.stage[id].w == w
    ensures NeedsOk(f'.needsTesting, f'.stage, f'.mbox) && AwaitingOk(f'.awaiting, f'.stage, f'.mbox)
    ensures OnWorkerOk(f'.onWorker, f'.stage, f'.mbox) && FailuresOk(f'.failures, f'.stage, f'.mbox)
  {
    hide NeedsOk, AwaitingOk, OnWorkerOk, FailuresOk;
    var x := f'.stage[id];
    NeedsFrame(f.needsTesting, f'.needsTesting, f.stage, f'.mbox, id, x);
    AwaitingFrame(f.awaiting, f'.awaiting, f.stage, f'.mbox, id, x);
    FailuresFrame(f.failures, f'.failures, f.stage, f'.mbox, id, x);
    OnWorkerFrame(f.onWorker, f'.onWorker, f.stage, f'.mbox, w, id, x);
  }

  /** Thread `w` moves on; it may take its series out of "awaiting git worker" and touch its own tree. */
  lemma ThreadFrame(f: Front, f': Front, w: nat)
    requires IngestOk(f.ingest, f.needsTesting, f.awaiting, f.spawned, f.git)
    requires SpawnedOk(f.spawned, f.awaiting, f.git) && WaitersOk(f.git, f.awaiting, f.onWorker)
    requires w < |f.git| == |f'.git| && f'.git == f.git[w := f'.git[w]]
    requires f'.ingest == f.ingest && f'.spawned == f.spawned && f'.needsTesting == f.needsTesting
    requires f'.git[w].Waits() ==> f.git[w].Waits() && f'.git[w].id == f.git[w].id && f'.awaiting == f.awaiting
    requires f'.awaiting == f.awaiting || (f.git[w].Waits() && f'.awaiting == f.awaiting - {f.git[w].id})
    requires forall v, id :: (v, id) in f'.onWorker && v != w ==> (v, id) in f.onWorker
    requires f'.git[w].Clear? ==> forall id :: (w, id) !in f'.onWorker
    ensures IngestOk(f'.ingest, f'.needsTesting, f'.awaiting, f'.spawned, f'.git)
    ensures SpawnedOk(f'.spawned, f'.awaiting, f'.git) && WaitersOk(f'.git, f'.awaiting, f'.onWorker)
  {
    forall v | 0 <= v < |f.git| && v != w ensures f'.git[v] == f.git[v] {}
    forall id | NoneWaitsFor(f.git, id) ensures NoneWaitsFor(f'.git, id) {
      forall v | 0 <= v < |f'.git| && f'.git[v].Waits() ensures f'.git[v].id != id {
        assert f.git[v].Waits();
      }
    }
  }

  /** One task of the scan moves on. */
  lemma CatFrame(c: Config, f: Front, f': Front, id: Id)
    requires CatOk(c, f.cat, f.stage, f.passed)
    requires f'.cat - {id} == f.cat - {id} && f'.stage - {id} == f.stage - {id} && f.passed <= f'.passed
    requires id in f'.cat ==> CatOne(c, id, f'.cat[id], f'.stage, f'.passed)
    ensures CatOk(c, f'.cat, f'.stage, f'.passed)
  {
    forall k | k in f'.cat && k != id ensures CatOne(c, k, f'.cat[k], f'.stage, f'.passed) {
      assert k in f'.cat - {id} && f'.cat[k] == (f'.cat - {id})[k] == (f.cat - {id})[k] == f.cat[k];
      assert CatOne(c, k, f.cat[k], f.stage, f.passed);
      assert k in f.stage <==> k in f.stage - {id};
      assert k in f'.stage <==> k in f'.stage - {id};
      assert k in f.stage ==> f.stage[k] == (f.stage - {id})[k] == (f'.stage - {id})[k] == f'.stage[k];
    }
  }

  lemma CatAt(c: Config, f: Front, id: Id)
    requires CatOk(c, f.cat, f.stage, f.passed) && id in f.cat
    ensures CatOne(c, id, f.cat[id], f.stage, f.passed)
  {
  }

  lemma PassedFrame(c: Config, stage: map<Id, Stage>, passed: set<Id>, id: Id)
    requires PassedOk(c, stage, passed) && c.patches(id) != []
    ensures PassedOk(c, stage, passed + {id})
  {
  }

  lemma ThreadAt(c: Config, f: Front, w: nat)
    requires WorkersOk(c.remotes, f.git, f.stage, f.pushed) && w < |f.git|
    ensures WorkOk(c.remotes, w, f.git[w], f.stage, f.pushed)
  {
  }

  lemma EnteredFrame(entered: multiset<Id>, stage: map<Id, Stage>, mbox: map<Id, string>, id: Id, value: string)
    requires EnteredOk(entered, stage, mbox) && id in stage && stage[id].Seen?
    ensures EnteredOk(entered + multiset{id}, stage[id := Needs], mbox[id := value])
  {
  }

  lemma QueuedFrame(c: Config, queued: multiset<(Handle, Id)>, stage: map<Id, Stage>, id: Id, w: nat, j: nat)
    requires QueuedOk(c, queued, stage) && id in stage && stage[id] == Worker(w, j) && j < |c.remotes|
    ensures QueuedOk(c, queued + multiset{(c.remotes[j], id)}, stage[id := Worker(w, j + 1)])
  {
    assert c.remotes[..j + 1] == c.remotes[..j] + [c.remotes[j]];
    var queued', stage' := queued + multiset{(c.remotes[j], id)}, stage[id := Worker(w, j + 1)];
    forall h, x
      ensures queued'[(h, x)] == if x in stage' then multiset(c.remotes[..RemotesDone(c.remotes, stage'[x])])[h] else 0
    {
      assert queued[(h, x)] == if x in stage then multiset(c.remotes[..RemotesDone(c.remotes, stage[x])])[h] else 0;
      hide QueuedOk;
    }
  }

  /** A stage without remotes served, or the first ones of a series, does not touch the queues. */
  lemma QueuedEarly(c: Config, queued: multiset<(Handle, Id)>, stage: map<Id, Stage>, id: Id, x: Stage)
    requires QueuedOk(c, queued, stage)
    requires x.Seen? || x.Needs?
    requires id in stage ==> stage[id].Seen?
    ensures QueuedOk(c, queued, stage[id := x])
  {
  }

  /** What a change between two later stages leaves alone. */
  lemma LaterStageFrame(c: Config, f: Front, id: Id, x: Stage)
    requires SeenOk(f.seen, f.stage) && CatOk(c, f.cat, f.stage, f.passed) && PassedOk(c, f.stage, f.passed)
    requires EnteredOk(f.entered, f.stage, f.mbox) && QueuedOk(c, f.queued, f.stage)
    requires id in f.stage && !f.stage[id].Seen? && !x.Seen?
    ensures SeenOk(f.seen, f.stage[id := x]) && CatOk(c, f.cat, f.stage[id := x], f.passed) &&
            PassedOk(c, f.stage[id := x], f.passed)
    ensures EnteredOk(f.entered, f.stage[id := x], f.mbox)
    ensures RemotesDone(c.remotes, x) == RemotesDone(c.remotes, f.stage[id]) &&
            (x.GitFailed? ==> FailsAt(c.remotes, x.done))
            ==> QueuedOk(c, f.queued, f.stage[id := x])
  {
  }

  // ---- every step keeps the invariant ----

  /** A series that never entered has no value in any tree yet. */
  lemma EntersWithValue(f: Front, id: Id, value: string)
    requires id in f.stage && f.stage[id].Seen?
    requires NeedsOk(f.needsTesting, f.stage, f.mbox) && AwaitingOk(f.awaiting, f.stage, f.mbox)
    requires OnWorkerOk(f.onWorker, f.stage, f.mbox) && FailuresOk(f.failures, f.stage, f.mbox)
    ensures NeedsOk(f.needsTesting, f.stage, f.mbox[id := value]) &&
            AwaitingOk(f.awaiting, f.stage, f.mbox[id := value])
    ensures OnWorkerOk(f.onWorker, f.stage, f.mbox[id := value]) && FailuresOk(f.failures, f.stage, f.mbox[id := value])
  {
  }

  lemma CatListKeepsInv(c: Config, f: Front, a: Action)
    requires Inv(c, f) && Enabled(c, f, a) && a.CatList?
    ensures Inv(c, Apply(c, f, a))
  {
    hide SeenOk, NeedsOk, AwaitingOk, OnWorkerOk, FailuresOk, OnePerWorker, PassedOk, IngestOk, SpawnedOk;
    hide WaitersOk, WorkersOk, EnteredOk, QueuedOk, PushedOk;
  }

  lemma CatFilterKeepsInv(c: Config, f: Front, a: Action)
    requires Inv(c, f) && Enabled(c, f, a) && a.CatFilter?
    ensures Inv(c, Apply(c, f, a))
  {
    hide NeedsOk, AwaitingOk, OnWorkerOk, FailuresOk, OnePerWorker, CatOk, PassedOk;
    hide IngestOk, SpawnedOk, WaitersOk, WorkersOk, EnteredOk, QueuedOk, PushedOk;
    var f', id := Apply(c, f, a), a.id;
    CatAt(c, f, id);
    if Wanted(f.seen, f.cat[id].series, a.answer) {
      PassedFrame(c, f.stage, f.passed, id);
      assert f'.cat == f.cat[id := Passed(f.cat[id].series.mbox)];
    } else {
      assert f'.cat == f.cat - {id};
    }
    CatFrame(c, f, f', id);
  }

  lemma CatMarkKeepsInv(c: Config, f: Front, a: Action)
    requires Inv(c, f) && Enabled(c, f, a) && a.CatMark?
    ensures Inv(c, Apply(c, f, a))
  {
    hide NeedsOk, AwaitingOk, OnWorkerOk, FailuresOk, OnePerWorker, CatOk, IngestOk, SpawnedOk, WaitersOk;
    hide WorkersOk, QueuedOk, PushedOk;
    var f', id := Apply(c, f, a), a.id;
    CatAt(c, f, id);
    Located(f, 0, id);
    TreesFrame(f, f', 0, id);
    WorkersElsewhere(c.remotes, f.git, f.stage, f.pushed, id, f'.stage[id]);
    CatFrame(c, f, f', id);
    QueuedEarly(c, f.queued, f.stage, id, Seen);
  }

  lemma CatEnqueueKeepsInv(c: Config, f: Front, a: Action)
    requires Inv(c, f) && Enabled(c, f, a) && a.CatEnqueue?
    ensures Inv(c, Apply(c, f, a))
  {
    hide NeedsOk, AwaitingOk, OnWorkerOk, FailuresOk, OnePerWorker, CatOk, SpawnedOk, WaitersOk, WorkersOk;
    hide EnteredOk, QueuedOk, PushedOk;
    var f', id := Apply(c, f, a), a.id;
    CatAt(c, f, id);
    Located(f, 0, id);
    EntersWithValue(f, id, f'.mbox[id]);
    TreesFrame(f, f', 0, id);
    WorkersElsewhere(c.remotes, f.git, f.stage, f.pushed, id, f'.stage[id]);
    CatFrame(c, f, f', id);
    EnteredFrame(f.entered, f.stage, f.mbox, id, f'.mbox[id]);
    QueuedEarly(c, f.queued, f.stage, id, Needs);
  }

  lemma IngestPickKeepsInv(c: Config, f: Front, a: Action)
    requires Inv(c, f) && Enabled(c, f, a) && a.IngestPick?
    ensures Inv(c, Apply(c, f, a))
  {
    hide SeenOk, NeedsOk, AwaitingOk, OnWorkerOk, FailuresOk, OnePerWorker, CatOk, PassedOk, SpawnedOk, WaitersOk;
    hide WorkersOk, EnteredOk, QueuedOk, PushedOk;
  }

  lemma IngestMoveKeepsInv(c: Config, f: Front, a: Action)
    requires Inv(c, f) && Enabled(c, f, a) && a.IngestMove?
    ensures Inv(c, Apply(c, f, a))
  {
    hide SeenOk, NeedsOk, AwaitingOk, OnWorkerOk, FailuresOk, OnePerWorker, CatOk, PassedOk, WorkersOk, EnteredOk;
    hide QueuedOk, PushedOk;
    var f', id := Apply(c, f, a), f.ingest.id;
    Located(f, 0, id);
    TreesFrame(f, f', 0, id);
    WorkersElsewhere(c.remotes, f.git, f.stage, f.pushed, id, f'.stage[id]);
    LaterStageFrame(c, f, id, f'.stage[id]);
  }

  lemma IngestSpawnKeepsInv(c: Config, f: Front, a: Action)
    requires Inv(c, f) && Enabled(c, f, a) && a.IngestSpawn?
    ensures Inv(c, Apply(c, f, a))
  {
    hide SeenOk, NeedsOk, AwaitingOk, OnWorkerOk, FailuresOk, OnePerWorker, CatOk, PassedOk, WaitersOk, WorkersOk;
    hide EnteredOk, QueuedOk, PushedOk;
  }

  lemma GitStartKeepsInv(c: Config, f: Front, a: Action)
    requires Inv(c, f) && Enabled(c, f, a) && a.GitStart?
    ensures Inv(c, Apply(c, f, a))
  {
    hide SeenOk, NeedsOk, AwaitingOk, OnWorkerOk, FailuresOk, OnePerWorker, CatOk, PassedOk, EnteredOk, QueuedOk;
    hide PushedOk;
  }

  lemma GitClearKeepsInv(c: Config, f: Front, a: Action)
    requires Inv(c, f) && Enabled(c, f, a) && a.GitClear?
    ensures Inv(c, Apply(c, f, a))
  {
    hide SeenOk, NeedsOk, AwaitingOk, OnWorkerOk, FailuresOk, OnePerWorker, CatOk, PassedOk, IngestOk, SpawnedOk;
    hide WaitersOk, EnteredOk, QueuedOk, PushedOk;
    var f' := Apply(c, f, a);
    ThreadFrame(f, f', a.w);
  }

  lemma GitTakeKeepsInv(c: Config, f: Front, a: Action)
    requires Inv(c, f) && Enabled(c, f, a) && a.GitTake?
    ensures Inv(c, Apply(c, f, a))
  {
    hide SeenOk, NeedsOk, AwaitingOk, OnWorkerOk, FailuresOk, CatOk, PassedOk, IngestOk, SpawnedOk, EnteredOk;
    hide QueuedOk, PushedOk;
    var f', id := Apply(c, f, a), f.git[a.w].id;
    assert WorkOk(c.remotes, a.w, f.git[a.w], f.stage, f.pushed);
    Located(f, a.w, id);
    TreesFrame(f, f', a.w, id);
    ThreadFrame(f, f', a.w);
    WorkersFrame(c.remotes, f.git, f'.git, f.stage, f.pushed, a.w, id, f'.stage[id]);
    LaterStageFrame(c, f, id, f'.stage[id]);
  }

  lemma GitReadyKeepsInv(c: Config, f: Front, a: Action)
    requires Inv(c, f) && Enabled(c, f, a) && a.GitReady?
    ensures Inv(c, Apply(c, f, a))
  {
    hide SeenOk, NeedsOk, AwaitingOk, OnWorkerOk, FailuresOk, OnePerWorker, CatOk, PassedOk, IngestOk, SpawnedOk;
    hide WaitersOk, EnteredOk, QueuedOk, PushedOk;
    var f' := Apply(c, f, a);
    ThreadFrame(f, f', a.w);
  }

  lemma GitPushKeepsInv(c: Config, f: Front, a: Action)
    requires Inv(c, f) && Enabled(c, f, a) && a.GitPush?
    ensures Inv(c, Apply(c, f, a))
  {
    hide SeenOk, NeedsOk, AwaitingOk, OnWorkerOk, FailuresOk, OnePerWorker, CatOk, PassedOk, IngestOk, SpawnedOk;
    hide WaitersOk, EnteredOk, QueuedOk;
    var f' := Apply(c, f, a);
    ThreadFrame(f, f', a.w);
  }

  lemma GitQueueKeepsInv(c: Config, f: Front, a: Action)
    requires Inv(c, f) && Enabled(c, f, a) && a.GitQueue?
    ensures Inv(c, Apply(c, f, a))
  {
    hide SeenOk, NeedsOk, AwaitingOk, OnWorkerOk, FailuresOk, OnePerWorker, CatOk, PassedOk, IngestOk, SpawnedOk;
    hide WaitersOk, EnteredOk, QueuedOk;
    var f', id := Apply(c, f, a), f.git[a.w].id;
    assert WorkOk(c.remotes, a.w, f.git[a.w], f.stage, f.pushed);
    Located(f, a.w, id);
    TreesFrame(f, f', a.w, id);
    ThreadFrame(f, f', a.w);
    WorkersFrame(c.remotes, f.git, f'.git, f.stage, f.pushed, a.w, id, f'.stage[id]);
    LaterStageFrame(c, f, id, f'.stage[id]);
    QueuedFrame(c, f.queued, f.stage, id, a.w, f.git[a.w].j);
  }

  lemma GitOkKeepsInv(c: Config, f: Front, a: Action)
    requires Inv(c, f) && Enabled(c, f, a) && a.GitOk?
    ensures Inv(c, Apply(c, f, a))
  {
    hide SeenOk, NeedsOk, AwaitingOk, OnWorkerOk, FailuresOk, OnePerWorker, CatOk, PassedOk, IngestOk, SpawnedOk;
    hide WaitersOk, EnteredOk, QueuedOk, PushedOk;
    var f' := Apply(c, f, a);
    ThreadFrame(f, f', a.w);
  }

  lemma GitRemoveKeepsInv(c: Config, f: Front, a: Action)
    requires Inv(c, f) && Enabled(c, f, a) && a.GitRemove?
    ensures Inv(c, Apply(c, f, a))
  {
    hide SeenOk, NeedsOk, AwaitingOk, OnWorkerOk, FailuresOk, CatOk, PassedOk, IngestOk, SpawnedOk, WaitersOk;
    hide EnteredOk, QueuedOk, PushedOk;
    var f', id := Apply(c, f, a), f.git[a.w].id;
    assert WorkOk(c.remotes, a.w, f.git[a.w], f.stage, f.pushed);
    Located(f, a.w, id);
    TreesFrame(f, f', a.w, id);
    ThreadFrame(f, f', a.w);
    WorkersFrame(c.remotes, f.git, f'.git, f.stage, f.pushed, a.w, id, f'.stage[id]);
    LaterStageFrame(c, f, id, f'.stage[id]);
  }

  lemma GitFailKeepsInv(c: Config, f: Front, a: Action)
    requires Inv(c, f) && Enabled(c, f, a) && a.GitFail?
    ensures Inv(c, Apply(c, f, a))
  {
    hide SeenOk, NeedsOk, AwaitingOk, OnWorkerOk, FailuresOk, OnePerWorker, CatOk, PassedOk, IngestOk, SpawnedOk;
    hide WaitersOk, EnteredOk, QueuedOk, PushedOk;
    var f' := Apply(c, f, a);
    ThreadFrame(f, f', a.w);
  }

  lemma GitFailMoveKeepsInv(c: Config, f: Front, a: Action)
    requires Inv(c, f) && Enabled(c, f, a) && a.GitFailMove?
    ensures Inv(c, Apply(c, f, a))
  {
    hide SeenOk, NeedsOk, AwaitingOk, OnWorkerOk, FailuresOk, CatOk, PassedOk, IngestOk, SpawnedOk, WaitersOk;
    hide EnteredOk, QueuedOk, PushedOk;
    var f', id := Apply(c, f, a), f.git[a.w].id;
    assert WorkOk(c.remotes, a.w, f.git[a.w], f.stage, f.pushed);
    Located(f, a.w, id);
    TreesFrame(f, f', a.w, id);
    ThreadFrame(f, f', a.w);
    WorkersFrame(c.remotes, f.git, f'.git, f.stage, f.pushed, a.w, id, f'.stage[id]);
    LaterStageFrame(c, f, id, f'.stage[id]);
  }

  lemma GitBonedKeepsInv(c: Config, f: Front, a: Action)
    requires Inv(c, f) && Enabled(c, f, a) && a.GitBoned?
    ensures Inv(c, Apply(c, f, a))
  {
    hide SeenOk, NeedsOk, AwaitingOk, OnWorkerOk, FailuresOk, OnePerWorker, CatOk, PassedOk, IngestOk, SpawnedOk;
    hide WaitersOk, EnteredOk, QueuedOk, PushedOk;
    var f' := Apply(c, f, a);
    ThreadFrame(f, f', a.w);
  }

  lemma StepKeepsInv(c: Config, f: Front, a: Action)
    requires Inv(c, f) && Enabled(c, f, a)
    ensures Inv(c, Apply(c, f, a))
  {
    hide Inv;
    match a
    case CatList(_) => CatListKeepsInv(c, f, a);
    case CatFilter(_, _) => CatFilterKeepsInv(c, f, a);
    case CatMark(_) => CatMarkKeepsInv(c, f, a);
    case CatEnqueue(_) => CatEnqueueKeepsInv(c, f, a);
    case IngestPick(_) => IngestPickKeepsInv(c, f, a);
    case IngestMove => IngestMoveKeepsInv(c, f, a);
    case IngestSpawn => IngestSpawnKeepsInv(c, f, a);
    case GitStart(_, _) => GitStartKeepsInv(c, f, a);
    case GitClear(_) => GitClearKeepsInv(c, f, a);
    case GitTake(_) => GitTakeKeepsInv(c, f, a);
    case GitReady(_) => GitReadyKeepsInv(c, f, a);
    case GitPush(_) => GitPushKeepsInv(c, f, a);
    case GitQueue(_) => GitQueueKeepsInv(c, f, a);
    case GitOk(_) => GitOkKeepsInv(c, f, a);
    case GitRemove(_) => GitRemoveKeepsInv(c, f, a);
    case GitFail(_) => GitFailKeepsInv(c, f, a);
    case GitFailMove(_) => GitFailMoveKeepsInv(c, f, a);
    case GitBoned(_) => GitBonedKeepsInv(c, f, a);
  }

  // ---- what the invariant says ----

  /** About one series. */
  lemma SeriesFacts(c: Config, f: Front, w: nat, id: Id)
    requires Inv(c, f)
    ensures id in f.seen <==> id in f.stage
    ensures id in f.needsTesting <==> id in f.stage && f.stage[id].Needs?
    ensures id in f.awaiting <==> id in f.stage && f.stage[id].Awaiting?
    ensures (w, id) in f.onWorker <==> id in f.stage && f.stage[id].Worker? && f.stage[id].w == w
    ensures id in f.failures <==> id in f.stage && f.stage[id].GitFailed?
    ensures id in f.needsTesting ==> id in f.mbox && f.needsTesting[id] == f.mbox[id]
    ensures id in f.awaiting ==> id in f.mbox && f.awaiting[id] == f.mbox[id]
    ensures (w, id) in f.onWorker ==> id in f.mbox && f.onWorker[(w, id)] == f.mbox[id]
    ensures id in f.failures ==> id in f.mbox && f.failures[id] == f.mbox[id]
    ensures id in f.stage ==> id in f.passed && c.patches(id) != []
    ensures f.entered[id] == if id in f.stage && !f.stage[id].Seen? then 1 else 0
    ensures id in f.mbox <==> f.entered[id] > 0
  {
    hide OnePerWorker, CatOk, IngestOk, SpawnedOk, WaitersOk, WorkersOk, QueuedOk, PushedOk;
    hide NeedsOk, AwaitingOk, OnWorkerOk, FailuresOk;
    Located(f, w, id);
  }

  /** About the queues of one series. */
  lemma QueueFacts(c: Config, f: Front, id: Id)
    requires Inv(c, f)
    ensures id in f.stage ==> RemotesDone(c.remotes, f.stage[id]) <= |c.remotes|
    ensures forall h :: f.queued[(h, id)] ==
              if id in f.stage then multiset(c.remotes[..RemotesDone(c.remotes, f.stage[id])])[h] else 0
    ensures forall h :: (h, id) in f.queued ==> (h, id) in f.pushed && h in c.remotes
    ensures id in f.stage && f.stage[id].GitFailed? ==> FailsAt(c.remotes, f.stage[id].done)
  {
    hide SeenOk, NeedsOk, AwaitingOk, OnWorkerOk, FailuresOk, OnePerWorker, CatOk, PassedOk;
    hide IngestOk, SpawnedOk, WaitersOk, WorkersOk, EnteredOk;
    forall h | (h, id) in f.queued ensures h in c.remotes {
      assert h in multiset(c.remotes[..RemotesDone(c.remotes, f.stage[id])]);
    }
  }

  /** About one thread and its tree. */
  lemma ThreadFacts(c: Config, f: Front, w: nat)
    requires Inv(c, f) && w < |f.git|
    ensures |f.git| == c.workers && WorkOk(c.remotes, w, f.git[w], f.stage, f.pushed)
    ensures f.git[w].Works() ==> forall id :: (w, id) in f.onWorker <==> id == f.git[w].id
    ensures f.git[w].Clear? ==> forall id :: (w, id) !in f.onWorker
    ensures f.git[w].Waits() ==> f.git[w].id in f.awaiting
  {
    hide SeenOk, NeedsOk, AwaitingOk, OnWorkerOk, FailuresOk, CatOk, PassedOk;
    hide IngestOk, SpawnedOk, WorkersOk, EnteredOk, QueuedOk, PushedOk;
    ThreadAt(c, f, w);
    if f.git[w].Works() {
      Located(f, w, f.git[w].id);
    }
  }

  /** About one task of the scan. */
  lemma CatFacts(c: Config, f: Front, id: Id)
    requires Inv(c, f) && id in f.cat
    ensures CatOne(c, id, f.cat[id], f.stage, f.passed)
  {
    hide SeenOk, NeedsOk, AwaitingOk, OnWorkerOk, FailuresOk, OnePerWorker, PassedOk;
    hide IngestOk, SpawnedOk, WaitersOk, WorkersOk, EnteredOk, QueuedOk, PushedOk;
  }

  /** About the ingest loop and the pool. */
  lemma IngestFacts(c: Config, f: Front)
    requires Inv(c, f)
    ensures f.ingest.Picked? ==> f.ingest.id in f.needsTesting
    ensures f.ingest.Moved? ==>
              f.ingest.id in f.awaiting && f.ingest.id !in f.spawned && NoneWaitsFor(f.git, f.ingest.id)
    ensures forall id :: f.spawned[id] <= 1
    ensures forall id :: id in f.spawned ==> id in f.awaiting && NoneWaitsFor(f.git, id)
  {
    hide SeenOk, NeedsOk, AwaitingOk, OnWorkerOk, FailuresOk, OnePerWorker, CatOk, PassedOk;
    hide WaitersOk, WorkersOk, EnteredOk, QueuedOk, PushedOk;
  }

  // ---- where the remotes stop ----

  /** The remotes served when a thread is at this point. */
  function ServedAt(pc: GitPc): nat {
    match pc
    case Push(_, j) => j
    case Pushed(_, j) => j
    case _ => 0
  }

  /** After `done` remotes thread `w` gave up on the series, and no thread will take it further. */
  ghost predicate StoppedAt(f: Front, w: nat, id: Id, done: nat) {
    && id in f.stage
    && (f.stage[id] == GitFailed(done)
        || (f.stage[id] == Worker(w, done)
            && (w < |f.git| && f.git[w].Works() && f.git[w].id == id ==> f.git[w].Failing?)))
  }

  lemma FailStops(c: Config, f: Front, w: nat)
    requires Inv(c, f) && Enabled(c, f, GitFail(w))
    ensures StoppedAt(Apply(c, f, GitFail(w)), w, f.git[w].id, ServedAt(f.git[w]))
  {
    hide Inv;
    ThreadFacts(c, f, w);
  }

  lemma ScanOrIngestKeepsStopped(c: Config, f: Front, a: Action, w: nat, id: Id, done: nat)
    requires a.CatMark? || a.CatEnqueue? || a.IngestMove?
    requires Inv(c, f) && Enabled(c, f, a) && StoppedAt(f, w, id, done)
    ensures StoppedAt(Apply(c, f, a), w, id, done)
  {
    hide Inv;
    match a
    case CatMark(i) => CatFacts(c, f, i);
    case CatEnqueue(i) => CatFacts(c, f, i);
    case IngestMove => IngestFacts(c, f); SeriesFacts(c, f, w, f.ingest.id);
  }

  lemma ThreadKeepsStopped(c: Config, f: Front, a: Action, w: nat, id: Id, done: nat)
    requires a.GitTake? || a.GitQueue? || a.GitRemove? || a.GitFailMove?
    requires Inv(c, f) && Enabled(c, f, a) && StoppedAt(f, w, id, done)
    ensures StoppedAt(Apply(c, f, a), w, id, done)
  {
    hide Inv;
    ThreadFacts(c, f, a.w);
    SeriesFacts(c, f, w, f.git[a.w].id);
  }

  lemma OthersKeepStopped(c: Config, f: Front, a: Action, w: nat, id: Id, done: nat)
    requires !a.CatMark? && !a.CatEnqueue? && !a.IngestMove?
    requires !a.GitTake? && !a.GitQueue? && !a.GitRemove? && !a.GitFailMove?
    requires Enabled(c, f, a) && StoppedAt(f, w, id, done)
    ensures StoppedAt(Apply(c, f, a), w, id, done)
  {
    hide Wanted, StoppedAt;
    if a.GitReady? || a.GitPush? || a.GitOk? || a.GitFail? {
      WorkingKeepsStopped(c, f, a, w, id, done);
    } else if a.GitStart? || a.GitClear? || a.GitBoned? {
      WaitingKeepsStopped(c, f, a, w, id, done);
    } else {
      ElsewhereKeepsStopped(c, f, a, w, id, done);
    }
  }

  /** A step of a thread at work. */
  lemma WorkingKeepsStopped(c: Config, f: Front, a: Action, w: nat, id: Id, done: nat)
    requires (a.GitReady? || a.GitPush? || a.GitOk? || a.GitFail?) && Enabled(c, f, a) && StoppedAt(f, w, id, done)
    ensures StoppedAt(Apply(c, f, a), w, id, done)
  {
  }

  /** A step after which its thread does not work. */
  lemma WaitingKeepsStopped(c: Config, f: Front, a: Action, w: nat, id: Id, done: nat)
    requires (a.GitStart? || a.GitClear? || a.GitBoned?) && Enabled(c, f, a) && StoppedAt(f, w, id, done)
    ensures StoppedAt(Apply(c, f, a), w, id, done)
  {
  }

  /** A step that changes no thread. */
  lemma ElsewhereKeepsStopped(c: Config, f: Front, a: Action, w: nat, id: Id, done: nat)
    requires (a.CatList? || a.CatFilter? || a.IngestPick? || a.IngestSpawn?) && Enabled(c, f, a)
    requires StoppedAt(f, w, id, done)
    ensures StoppedAt(Apply(c, f, a), w, id, done)
  {
    hide Wanted, StoppedAt;
    SameThreads(c, f, a);
    hide Apply, Enabled;
    StoppedFrame(f, Apply(c, f, a), w, id, done);
  }

  lemma SameThreads(c: Config, f: Front, a: Action)
    requires (a.CatList? || a.CatFilter? || a.IngestPick? || a.IngestSpawn?) && Enabled(c, f, a)
    ensures Apply(c, f, a).git == f.git && Apply(c, f, a).stage == f.stage
  {
    hide Wanted;
    match a
    case CatList(_) =>
    case CatFilter(_, _) =>
    case IngestPick(_) =>
    case IngestSpawn =>
  }

  lemma StoppedFrame(f: Front, f': Front, w: nat, id: Id, done: nat)
    requires StoppedAt(f, w, id, done) && f'.git == f.git && f'.stage == f.stage
    ensures StoppedAt(f', w, id, done)
  {
  }

  lemma StoppedStays(c: Config, f: Front, a: Action, w: nat, id: Id, done: nat)
    requires Inv(c, f) && Enabled(c, f, a) && StoppedAt(f, w, id, done)
    ensures StoppedAt(Apply(c, f, a), w, id, done)
  {
    hide Inv, Enabled, Apply, StoppedAt;
    match a
    case CatMark(_) => ScanOrIngestKeepsStopped(c, f, a, w, id, done);
    case CatEnqueue(_) => ScanOrIngestKeepsStopped(c, f, a, w, id, done);
    case IngestMove => ScanOrIngestKeepsStopped(c, f, a, w, id, done);
    case GitTake(_) => ThreadKeepsStopped(c, f, a, w, id, done);
    case GitQueue(_) => ThreadKeepsStopped(c, f, a, w, id, done);
    case GitRemove(_) => ThreadKeepsStopped(c, f, a, w, id, done);
    case GitFailMove(_) => ThreadKeepsStopped(c, f, a, w, id, done);
    case _ => OthersKeepStopped(c, f, a, w, id, done);
  }
}
