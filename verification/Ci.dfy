/** From the runner queues to finished results: one job watcher per runner and one completion
    watcher per series that was started, as a labelled transition system. The trees "h queue"
    and "h working" of a handle h are the pairs of `queue` and `working` that start with h. */
module Ci {
  import opened Basics

  // ---- what a runner answers ----

  predicate Finished(r: RunnerResult) {
    r.state != Waiting && r.state != Running
  }

  function FinishedOf(jobs: seq<RunnerResult>): (done: seq<RunnerResult>)
    ensures |done| <= |jobs|
    ensures forall r :: r in done <==> r in jobs && Finished(r)
    ensures |done| == |jobs| <==> forall r <- jobs :: Finished(r)
  {
    if jobs == [] then []
    else if Finished(jobs[0]) then [jobs[0]] + FinishedOf(jobs[1..])
    else FinishedOf(jobs[1..])
  }

  // ---- program counters ----

  datatype JobPc = JobIdle | Starting(id: Id) | Moving(id: Id) | Spawning(id: Id)

  /** `Reporting` walks the finished jobs of one poll; `all` says whether every job was finished. */
  datatype WatchPc = Polling | Reporting(todo: seq<RunnerResult>, all: bool) | Leaving | Gone

  datatype Watcher = Watcher(handle: Handle, id: Id, completed: seq<string>, pc: WatchPc)

  function Pair(v: Watcher): (Handle, Id) {
    (v.handle, v.id)
  }

  /** The life of a series at one runner. */
  datatype CiStage = Queued | Working | Reported

  // ---- state ----

  datatype Ci = Ci(
    // trees
    queue: set<(Handle, Id)>,
    working: set<(Handle, Id)>,
    // what a crash wipes; tasks that ended stay in the list as `Gone`
    jobs: seq<JobPc>,
    watchers: seq<Watcher>,
    // history
    arrived: multiset<(Handle, Id)>,
    finished: set<(Handle, Id, RunnerResult)>,   // finished jobs some poll returned
    reported: multiset<(Handle, Id, string)>,    // insertions into "needs dispatch"
    stage: map<(Handle, Id), CiStage>)

  function Init(c: Config): Ci {
    Ci({}, {}, seq(|c.runners|, _ => JobIdle), [], multiset{}, {}, multiset{}, map[])
  }

  function Crash(s: Ci): Ci {
    s.(jobs := seq(|s.jobs|, _ => JobIdle), watchers := [])
  }

  /** The git workers insert a series into a runner queue. */
  function Arrive(s: Ci, x: (Handle, Id)): Ci {
    s.(queue := s.queue + {x}, arrived := s.arrived + multiset{x}, stage := s.stage[x := Queued])
  }

  datatype Action =
    | JobPick(k: nat, id: Id)
    | JobStart(k: nat)
    | JobMove(k: nat)
    | JobSpawn(k: nat)
    | Poll(t: nat, jobs: seq<RunnerResult>)
    | Report(t: nat)
    | RoundEnd(t: nat)
    | Leave(t: nat)

  predicate Enabled(c: Config, s: Ci, a: Action) {
    match a
    case JobPick(k, id) => k < |s.jobs| == |c.runners| && s.jobs[k].JobIdle? && (c.runners[k], id) in s.queue
    case JobStart(k) => k < |s.jobs| && s.jobs[k].Starting?
    case JobMove(k) => k < |s.jobs| == |c.runners| && s.jobs[k].Moving? && (c.runners[k], s.jobs[k].id) in s.queue
    case JobSpawn(k) => k < |s.jobs| == |c.runners| && s.jobs[k].Spawning?
    case Poll(t, _) => t < |s.watchers| && s.watchers[t].pc.Polling?
    case Report(t) => t < |s.watchers| && s.watchers[t].pc.Reporting? && s.watchers[t].pc.todo != []
    case RoundEnd(t) => t < |s.watchers| && s.watchers[t].pc.Reporting? && s.watchers[t].pc.todo == []
    case Leave(t) => t < |s.watchers| && s.watchers[t].pc.Leaving?
  }

  /** The result a step inserts into "needs dispatch". */
  function Output(c: Config, s: Ci, a: Action): Option<(Handle, Id, RunnerResult)>
    requires Enabled(c, s, a)
  {
    if a.Report? then
      var v := s.watchers[a.t];
      if v.pc.todo[0].name in v.completed then None else Some((v.handle, v.id, v.pc.todo[0]))
    else None
  }

  function Apply(c: Config, s: Ci, a: Action): Ci
    requires Enabled(c, s, a)
  {
    match a
    case JobPick(k, id) => s.(jobs := s.jobs[k := Starting(id)])
    case JobStart(k) => s.(jobs := s.jobs[k := Moving(s.jobs[k].id)])
    case JobMove(k) =>
      var x := (c.runners[k], s.jobs[k].id);
      s.(queue := s.queue - {x}, working := s.working + {x},
         jobs := s.jobs[k := Spawning(s.jobs[k].id)], stage := s.stage[x := Working])
    case JobSpawn(k) =>
      s.(watchers := s.watchers + [Watcher(c.runners[k], s.jobs[k].id, [], Polling)], jobs := s.jobs[k := JobIdle])
    case Poll(t, jobs) =>
      var v := s.watchers[t];
      var done := FinishedOf(jobs);
      s.(watchers := s.watchers[t := v.(pc := Reporting(done, |jobs| == |done|))],
         finished := s.finished + (set r <- done :: (v.handle, v.id, r)))
    case Report(t) =>
      var v := s.watchers[t];
      var r := v.pc.todo[0];
      var pc := Reporting(v.pc.todo[1..], v.pc.all);
      if r.name in v.completed then s.(watchers := s.watchers[t := v.(pc := pc)])
      else s.(watchers := s.watchers[t := v.(completed := v.completed + [r.name], pc := pc)],
              reported := s.reported + multiset{(v.handle, v.id, r.name)})
    case RoundEnd(t) =>
      var v := s.watchers[t];
      s.(watchers := s.watchers[t := v.(pc := if v.pc.all then Leaving else Polling)])
    case Leave(t) =>
      var v := s.watchers[t];
      s.(working := s.working - {Pair(v)}, watchers := s.watchers[t := v.(pc := Gone)],
         stage := s.stage[Pair(v) := Reported])
  }

  // ---- what holds for every configuration ----

  ghost predicate TreesArrived(s: Ci) {
    && (forall x :: x in s.queue ==> x in s.arrived)
    && (forall x :: x in s.working ==> x in s.arrived)
  }

  ghost predicate JobsArrived(c: Config, jobs: seq<JobPc>, arrived: multiset<(Handle, Id)>) {
    && |jobs| == |c.runners|
    && (forall k :: 0 <= k < |jobs| && !jobs[k].JobIdle? ==> (c.runners[k], jobs[k].id) in arrived)
  }

  ghost predicate WatcherSound(v: Watcher, arrived: multiset<(Handle, Id)>, finished: set<(Handle, Id, RunnerResult)>) {
    && Pair(v) in arrived
    && (v.pc.Reporting? ==> forall r <- v.pc.todo :: Finished(r) && (v.handle, v.id, r) in finished)
  }

  ghost predicate WatchersSound(watchers: seq<Watcher>, arrived: multiset<(Handle, Id)>,
                                finished: set<(Handle, Id, RunnerResult)>) {
    forall t :: 0 <= t < |watchers| ==> WatcherSound(watchers[t], arrived, finished)
  }

  ghost predicate FinishedSound(arrived: multiset<(Handle, Id)>, finished: set<(Handle, Id, RunnerResult)>) {
    forall h, id, r :: (h, id, r) in finished ==> (h, id) in arrived && Finished(r)
  }

  ghost predicate Sound(c: Config, s: Ci) {
    && TreesArrived(s)
    && JobsArrived(c, s.jobs, s.arrived)
    && WatchersSound(s.watchers, s.arrived, s.finished)
    && FinishedSound(s.arrived, s.finished)
  }

  lemma SoundInit(c: Config)
    ensures Sound(c, Init(c))
  {
  }

  lemma SoundCrash(c: Config, s: Ci)
    requires Sound(c, s)
    ensures Sound(c, Crash(s))
  {
  }

  lemma SoundArrive(c: Config, s: Ci, x: (Handle, Id))
    requires Sound(c, s)
    ensures Sound(c, Arrive(s, x))
  {
    forall t | 0 <= t < |s.watchers| ensures WatcherSound(s.watchers[t], s.arrived + multiset{x}, s.finished) {
      assert WatcherSound(s.watchers[t], s.arrived, s.finished);
    }
  }

  lemma SoundJobStep(c: Config, s: Ci, a: Action)
    requires Sound(c, s) && Enabled(c, s, a)
    requires a.JobPick? || a.JobStart? || a.JobMove? || a.JobSpawn?
    ensures Sound(c, Apply(c, s, a))
  {
    hide WatcherSound, FinishedSound;
    if a.JobSpawn? {
      assert WatcherSound(Watcher(c.runners[a.k], s.jobs[a.k].id, [], Polling), s.arrived, s.finished) by {
        NewWatcherSound(c, s, a.k);
      }
    }
  }

  lemma NewWatcherSound(c: Config, s: Ci, k: nat)
    requires JobsArrived(c, s.jobs, s.arrived) && k < |s.jobs| && !s.jobs[k].JobIdle?
    ensures WatcherSound(Watcher(c.runners[k], s.jobs[k].id, [], Polling), s.arrived, s.finished)
  {
  }

  lemma SoundWatchStep(c: Config, s: Ci, a: Action)
    requires Sound(c, s) && Enabled(c, s, a)
    requires a.Poll? || a.Report? || a.RoundEnd? || a.Leave?
    ensures Sound(c, Apply(c, s, a))
    ensures Output(c, s, a).Some? ==> Output(c, s, a).value in s.finished
  {
    var s' := Apply(c, s, a);
    assert WatcherSound(s.watchers[a.t], s.arrived, s.finished);
    assert WatcherSound(s'.watchers[a.t], s'.arrived, s'.finished);
    forall t | 0 <= t < |s'.watchers| ensures WatcherSound(s'.watchers[t], s'.arrived, s'.finished) {
      assert WatcherSound(s.watchers[t], s.arrived, s.finished);
    }
  }

  lemma SoundStep(c: Config, s: Ci, a: Action)
    requires Sound(c, s) && Enabled(c, s, a)
    ensures Sound(c, Apply(c, s, a))
    ensures Output(c, s, a).Some? ==> Output(c, s, a).value in s.finished
  {
    hide Sound, Apply;
    if a.Poll? || a.Report? || a.RoundEnd? || a.Leave? {
      SoundWatchStep(c, s, a);
    } else {
      SoundJobStep(c, s, a);
    }
  }

  // ---- what holds when a series arrives at most once at each handle ----

  ghost predicate CiTrees(queue: set<(Handle, Id)>, working: set<(Handle, Id)>, stage: map<(Handle, Id), CiStage>) {
    && (forall x :: x in queue <==> x in stage && stage[x].Queued?)
    && (forall x :: x in working <==> x in stage && stage[x].Working?)
  }

  ghost predicate CiArrived(arrived: multiset<(Handle, Id)>, stage: map<(Handle, Id), CiStage>) {
    forall x :: arrived[x] == if x in stage then 1 else 0
  }

  /** A series about to get a completion watcher was moved and never had one. */
  ghost predicate JobOk(h: Handle, pc: JobPc, stage: map<(Handle, Id), CiStage>,
                        reported: multiset<(Handle, Id, string)>,
                        watchers: seq<Watcher>) {
    pc.Spawning? ==>
      && (h, pc.id) in stage && stage[(h, pc.id)].Working?
      && Unwatched((h, pc.id), watchers)
      && forall n :: (h, pc.id, n) !in reported
  }

  ghost predicate Unwatched(x: (Handle, Id), watchers: seq<Watcher>) {
    forall t :: 0 <= t < |watchers| ==> Pair(watchers[t]) != x
  }

  ghost predicate JobsOk(c: Config, s: Ci) {
    && |s.jobs| == |c.runners|
    && (forall k :: 0 <= k < |s.jobs| ==> JobOk(c.runners[k], s.jobs[k], s.stage, s.reported, s.watchers))
    && (forall k, l :: 0 <= k < l < |s.jobs| && s.jobs[k].Spawning? && s.jobs[l].Spawning? ==>
          (c.runners[k], s.jobs[k].id) != (c.runners[l], s.jobs[l].id))
  }

  /** The watcher's list of completed jobs is what was ever reported for its series. */
  ghost predicate WatcherOk(v: Watcher, stage: map<(Handle, Id), CiStage>, reported: multiset<(Handle, Id, string)>) {
    && Pair(v) in stage
    && stage[Pair(v)] == (if v.pc.Gone? then Reported else Working)
    && Distinct(v.completed)
    && (forall n :: n in v.completed <==> (v.handle, v.id, n) in reported)
  }

  ghost predicate WatchersOk(watchers: seq<Watcher>, stage: map<(Handle, Id), CiStage>,
                             reported: multiset<(Handle, Id, string)>) {
    && (forall t :: 0 <= t < |watchers| ==> WatcherOk(watchers[t], stage, reported))
    && (forall t, u :: 0 <= t < u < |watchers| ==> Pair(watchers[t]) != Pair(watchers[u]))
  }

  ghost predicate ReportedOk(stage: map<(Handle, Id), CiStage>, reported: multiset<(Handle, Id, string)>) {
    && (forall x :: reported[x] <= 1)
    && (forall h, id, n :: (h, id, n) in reported ==> (h, id) in stage && !stage[(h, id)].Queued?)
  }

  ghost predicate Unique(c: Config, s: Ci) {
    && CiTrees(s.queue, s.working, s.stage)
    && CiArrived(s.arrived, s.stage)
    && JobsOk(c, s)
    && WatchersOk(s.watchers, s.stage, s.reported)
    && ReportedOk(s.stage, s.reported)
  }

  lemma UniqueInit(c: Config)
    ensures Unique(c, Init(c))
  {
  }

  lemma UniqueCrash(c: Config, s: Ci)
    requires Unique(c, s)
    ensures Unique(c, Crash(s))
  {
  }

  lemma UniqueArrive(c: Config, s: Ci, x: (Handle, Id))
    requires Unique(c, s) && x !in s.arrived
    ensures Unique(c, Arrive(s, x))
  {
    var s' := Arrive(s, x);
    forall t | 0 <= t < |s.watchers| ensures WatcherOk(s.watchers[t], s'.stage, s.reported) {
      assert WatcherOk(s.watchers[t], s.stage, s.reported);
    }
    forall k | 0 <= k < |s.jobs| ensures JobOk(c.runners[k], s.jobs[k], s'.stage, s.reported, s.watchers) {
      assert JobOk(c.runners[k], s.jobs[k], s.stage, s.reported, s.watchers);
    }
  }

  lemma UniqueJobStep(c: Config, s: Ci, a: Action)
    requires Unique(c, s) && Enabled(c, s, a)
    requires a.JobPick? || a.JobStart?
    ensures Unique(c, Apply(c, s, a))
  {
    assert JobOk(c.runners[a.k], s.jobs[a.k], s.stage, s.reported, s.watchers);
  }

  lemma UniqueMove(c: Config, s: Ci, a: Action)
    requires Unique(c, s) && Enabled(c, s, a) && a.JobMove?
    ensures Unique(c, Apply(c, s, a))
  {
    var s', x := Apply(c, s, a), (c.runners[a.k], s.jobs[a.k].id);
    forall t | 0 <= t < |s.watchers|
      ensures WatcherOk(s.watchers[t], s'.stage, s.reported) && Pair(s.watchers[t]) != x
    {
      assert WatcherOk(s.watchers[t], s.stage, s.reported);
    }
    forall k | 0 <= k < |s.jobs| ensures JobOk(c.runners[k], s'.jobs[k], s'.stage, s.reported, s.watchers) {
      assert JobOk(c.runners[k], s.jobs[k], s.stage, s.reported, s.watchers);
    }
  }

  lemma UniqueSpawn(c: Config, s: Ci, a: Action)
    requires Unique(c, s) && Enabled(c, s, a) && a.JobSpawn?
    ensures Unique(c, Apply(c, s, a))
  {
    var s', x := Apply(c, s, a), (c.runners[a.k], s.jobs[a.k].id);
    assert JobOk(c.runners[a.k], s.jobs[a.k], s.stage, s.reported, s.watchers);
    forall k | 0 <= k < |s.jobs| ensures JobOk(c.runners[k], s'.jobs[k], s'.stage, s.reported, s'.watchers) {
      assert JobOk(c.runners[k], s.jobs[k], s.stage, s.reported, s.watchers);
    }
    forall t | 0 <= t < |s'.watchers| ensures WatcherOk(s'.watchers[t], s.stage, s.reported) {
      assert t < |s.watchers| ==> WatcherOk(s.watchers[t], s.stage, s.reported);
    }
  }

  /** The pairs of the watchers stay as they are when one of them moves on. */
  lemma SameWatched(s: Ci, s': Ci, t: nat, x: (Handle, Id))
    requires t < |s.watchers| == |s'.watchers| && s'.watchers == s.watchers[t := s'.watchers[t]]
    requires Pair(s'.watchers[t]) == Pair(s.watchers[t])
    ensures Unwatched(x, s.watchers) <==> Unwatched(x, s'.watchers)
  {
    assert forall u :: 0 <= u < |s.watchers| ==> Pair(s'.watchers[u]) == Pair(s.watchers[u]);
  }

  lemma UniquePoll(c: Config, s: Ci, a: Action)
    requires Unique(c, s) && Enabled(c, s, a)
    requires a.Poll? || a.RoundEnd?
    ensures Unique(c, Apply(c, s, a))
  {
    var s', x := Apply(c, s, a), Pair(s.watchers[a.t]);
    assert WatcherOk(s.watchers[a.t], s.stage, s.reported);
    assert Pair(s'.watchers[a.t]) == x;
    forall t | 0 <= t < |s.watchers| ensures WatcherOk(s'.watchers[t], s'.stage, s'.reported) {
      assert WatcherOk(s.watchers[t], s.stage, s.reported);
      assert t != a.t ==> Pair(s.watchers[t]) != x;
    }
    forall k | 0 <= k < |s.jobs| ensures JobOk(c.runners[k], s'.jobs[k], s'.stage, s'.reported, s'.watchers) {
      assert JobOk(c.runners[k], s.jobs[k], s.stage, s.reported, s.watchers);
      if s.jobs[k].Spawning? {
        SameWatched(s, s', a.t, (c.runners[k], s.jobs[k].id));
      }
    }
  }

  lemma UniqueReport(c: Config, s: Ci, a: Action)
    requires Unique(c, s) && Enabled(c, s, a)
    requires a.Report?
    ensures Unique(c, Apply(c, s, a))
    ensures Output(c, s, a).Some? ==>
              var (h, id, r) := Output(c, s, a).value; (h, id, r.name) !in s.reported
  {
    var s', x := Apply(c, s, a), Pair(s.watchers[a.t]);
    assert WatcherOk(s.watchers[a.t], s.stage, s.reported);
    assert Pair(s'.watchers[a.t]) == x;
    forall t | 0 <= t < |s.watchers| ensures WatcherOk(s'.watchers[t], s'.stage, s'.reported) {
      assert WatcherOk(s.watchers[t], s.stage, s.reported);
      assert t != a.t ==> Pair(s.watchers[t]) != x;
    }
    forall k | 0 <= k < |s.jobs| ensures JobOk(c.runners[k], s'.jobs[k], s'.stage, s'.reported, s'.watchers) {
      assert JobOk(c.runners[k], s.jobs[k], s.stage, s.reported, s.watchers);
      if s.jobs[k].Spawning? {
        SameWatched(s, s', a.t, (c.runners[k], s.jobs[k].id));
      }
    }
  }

  lemma UniqueLeave(c: Config, s: Ci, a: Action)
    requires Unique(c, s) && Enabled(c, s, a)
    requires a.Leave?
    ensures Unique(c, Apply(c, s, a))
  {
    var s', x := Apply(c, s, a), Pair(s.watchers[a.t]);
    assert WatcherOk(s.watchers[a.t], s.stage, s.reported);
    assert Pair(s'.watchers[a.t]) == x;
    forall t | 0 <= t < |s.watchers| ensures WatcherOk(s'.watchers[t], s'.stage, s'.reported) {
      assert WatcherOk(s.watchers[t], s.stage, s.reported);
      assert t != a.t ==> Pair(s.watchers[t]) != x;
    }
    forall k | 0 <= k < |s.jobs| ensures JobOk(c.runners[k], s'.jobs[k], s'.stage, s'.reported, s'.watchers) {
      assert JobOk(c.runners[k], s.jobs[k], s.stage, s.reported, s.watchers);
      if s.jobs[k].Spawning? {
        SameWatched(s, s', a.t, (c.runners[k], s.jobs[k].id));
      }
    }
  }

  lemma UniqueStep(c: Config, s: Ci, a: Action)
    requires Unique(c, s) && Enabled(c, s, a)
    ensures Unique(c, Apply(c, s, a))
    ensures Output(c, s, a).Some? ==>
              var (h, id, r) := Output(c, s, a).value; (h, id, r.name) !in s.reported
  {
    hide Unique;
    match a
    case JobPick(_, _) => UniqueJobStep(c, s, a);
    case JobStart(_) => UniqueJobStep(c, s, a);
    case JobMove(_) => UniqueMove(c, s, a);
    case JobSpawn(_) => UniqueSpawn(c, s, a);
    case Report(_) => UniqueReport(c, s, a);
    case Leave(_) => UniqueLeave(c, s, a);
    case _ => UniquePoll(c, s, a);
  }
}
