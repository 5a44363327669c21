/** The wait composed with the system: one consumer of a tree, the ingest loop, a job watcher or the
    dispatcher, with the control flow of its wait, beside everybody else. Its own steps happen only
    while it passes over its tree; what it and the others do to the tree is what `Wakeup` is about. */
module Waiting {
  import opened Basics
  import opened Codec
  import opened Protocol
  import opened Database
  import Intake
  import Ci
  import Outbox
  import Drain
  import Guarantees
  import Wakeup

  datatype Consumer = IngestLoop | JobWatcher(k: nat) | DispatchLoop

  /** The consumer exists and nobody else takes keys out of its tree. */
  predicate Sole(c: Config, who: Consumer) {
    who.JobWatcher? ==>
      who.k < |c.runners| && forall l :: 0 <= l < |c.runners| && l != who.k ==> c.runners[l] != c.runners[who.k]
  }

  function TreeOf(c: Config, s: State, who: Consumer): set<Key>
    requires Sole(c, who)
  {
    match who
    case IngestLoop => set id | id in s.front.needsTesting :: Num(id)
    case JobWatcher(k) => set x | x in s.ci.queue && x.0 == c.runners[k] :: Num(x.1)
    case DispatchLoop => set key | key in s.out.dispatch :: Text(key)
  }

  /** The keys its iterator has yielded and it has not removed. */
  function YieldedOf(s: State, who: Consumer): set<Key> {
    match who
    case IngestLoop => if s.front.ingest.Picked? then {Num(s.front.ingest.id)} else {}
    case JobWatcher(k) =>
      if k < |s.ci.jobs| && (s.ci.jobs[k].Starting? || s.ci.jobs[k].Moving?) then {Num(s.ci.jobs[k].id)} else {}
    case DispatchLoop =>
      (if s.out.pc.Resting? then {} else set key | key in s.out.pc.drop :: Text(key))
      + (if s.out.pc.HoldsKey() then {Text(s.out.pc.key)} else {})
  }

  /** The consumer is between two passes. */
  predicate AtRest(s: State, who: Consumer) {
    match who
    case IngestLoop => s.front.ingest.Resting?
    case JobWatcher(k) => k < |s.ci.jobs| ==> s.ci.jobs[k].JobIdle?
    case DispatchLoop => s.out.pc.Resting?
  }

  predicate Own(who: Consumer, a: Action) {
    match who
    case IngestLoop => a.Front? && (a.front.IngestPick? || a.front.IngestMove? || a.front.IngestSpawn?)
    case JobWatcher(k) =>
      a.Runner? && (a.ci.JobPick? || a.ci.JobStart? || a.ci.JobMove? || a.ci.JobSpawn?) && a.ci.k == k
    case DispatchLoop => a.Dispatcher? && !a.out.Foreign?
  }

  /** What a step means to the tree. */
  function EventOf(c: Config, s: State, who: Consumer, a: Action): Option<Wakeup.Action>
    requires Sole(c, who) && Enabled(c, s, a)
  {
    match who
    case IngestLoop =>
      if !a.Front? then None
      else (match a.front
            case CatEnqueue(id) => Some(Wakeup.Insert(Num(id)))
            case IngestPick(id) => Some(Wakeup.Yield(Num(id)))
            case IngestMove => Some(Wakeup.Remove(Num(s.front.ingest.id)))
            case _ => None)
    case JobWatcher(k) =>
      if a.Front? then
        var x := Intake.Output(c, s.front, a.front);
        if x.Some? && x.value.0 == c.runners[k] then Some(Wakeup.Insert(Num(x.value.1))) else None
      else if a.Runner? && a.ci.JobPick? && a.ci.k == k then Some(Wakeup.Yield(Num(a.ci.id)))
      else if a.Runner? && a.ci.JobMove? && a.ci.k == k then Some(Wakeup.Remove(Num(s.ci.jobs[k].id)))
      else None
    case DispatchLoop =>
      if a.Runner? then
        (match Ci.Output(c, s.ci, a.ci)
         case None => None
         case Some((h, id, r)) => Some(Wakeup.Insert(Text(FormatKey(h, id, r.name)))))
      else if a.Dispatcher? && a.out.Visit? then Some(Wakeup.Yield(Text(a.out.key)))
      else if a.Dispatcher? && a.out.Remove? then Some(Wakeup.Remove(Text(s.out.pc.drop[0])))
      else None
  }

  // ---- the system with the wait ----

  datatype Joint = Joint(s: State, w: Wakeup.State)

  datatype Move = Step(a: Action) | Control(b: Wakeup.Action)

  function Begin(c: Config, who: Consumer): Joint
    requires Sole(c, who)
  {
    Joint(Init(c), Wakeup.Init(TreeOf(c, Init(c), who)))
  }

  predicate CanMove(c: Config, who: Consumer, j: Joint, m: Move) {
    match m
    case Step(a) => Enabled(c, j.s, a) && (Own(who, a) ==> j.w.pc.Passing?)
    case Control(b) =>
      && (b.PassEnd? || b.First? || b.Second? || b.Wake?)
      && Wakeup.Enabled(j.w, b)
      && (b.PassEnd? ==> AtRest(j.s, who))
  }

  /** The step is one that `Wakeup` allows. The theorem is that it always is. */
  predicate Fits(c: Config, who: Consumer, j: Joint, m: Move)
    requires Sole(c, who) && CanMove(c, who, j, m)
  {
    m.Step? && !m.a.Crash? && EventOf(c, j.s, who, m.a).Some? ==>
      Wakeup.Enabled(j.w, EventOf(c, j.s, who, m.a).value)
  }

  /** After a crash the consumer starts over with a pass. A step that did not fit would leave the
      wait as it is. */
  function Next(c: Config, who: Consumer, j: Joint, m: Move): Joint
    requires Sole(c, who) && CanMove(c, who, j, m)
  {
    match m
    case Control(b) => Joint(j.s, Wakeup.Apply(true, j.w, b))
    case Step(a) =>
      var s' := Apply(c, j.s, a);
      if a.Crash? then Joint(s', Wakeup.Init(TreeOf(c, s', who)))
      else match EventOf(c, j.s, who, a)
        case None => Joint(s', j.w)
        case Some(e) => Joint(s', if Wakeup.Enabled(j.w, e) then Wakeup.Apply(true, j.w, e) else j.w)
  }

  ghost predicate Matches(c: Config, who: Consumer, j: Joint)
    requires Sole(c, who)
  {
    && j.w.tree == TreeOf(c, j.s, who)
    && j.w.yielded == YieldedOf(j.s, who)
    && Wakeup.Inv(j.w)
    && (!j.w.pc.Passing? ==> AtRest(j.s, who))
  }

  // ---- every step fits ----

  /** What the system's own invariant says about insertions, for this step. */
  ghost predicate InsertsNew(c: Config, s: State, a: Action)
    requires Enabled(c, s, a)
  {
    && (a.Front? && a.front.CatEnqueue? ==> a.front.id !in s.front.needsTesting)
    && (a.Front? && Intake.Output(c, s.front, a.front).Some? ==>
          Intake.Output(c, s.front, a.front).value !in s.ci.queue)
    && (a.Runner? && Ci.Output(c, s.ci, a.ci).Some? ==>
          var (h, id, r) := Ci.Output(c, s.ci, a.ci).value; FormatKey(h, id, r.name) !in s.out.dispatch)
  }

  /** The event is allowed and leads to this tree and these yielded keys. */
  ghost predicate EventFits(j: Joint, e: Option<Wakeup.Action>, tree': set<Key>, yielded': set<Key>, rest': bool) {
    match e
    case None => tree' == j.w.tree && yielded' == j.w.yielded && (!j.w.pc.Passing? ==> rest')
    case Some(b) =>
      && Wakeup.Enabled(j.w, b)
      && var w' := Wakeup.Apply(true, j.w, b);
         w'.tree == tree' && w'.yielded == yielded' && Wakeup.Inv(w') && (!w'.pc.Passing? ==> rest')
  }

  lemma IngestFits(c: Config, j: Joint, m: Move)
    requires Matches(c, IngestLoop, j) && CanMove(c, IngestLoop, j, m)
    requires m.Step? && !m.a.Crash? && InsertsNew(c, j.s, m.a)
    ensures Fits(c, IngestLoop, j, m) && Matches(c, IngestLoop, Next(c, IngestLoop, j, m))
  {
    hide FormatKey, Ci.Apply, Ci.Enabled, Outbox.Apply, Outbox.Enabled, Ci.Output, Intake.Wanted, Wakeup.Inv;
    if m.a.Front? {
      var b := m.a.front;
      if b.CatEnqueue? || b.IngestPick? || b.IngestMove? || b.IngestSpawn? {
        IngestEvent(c, j, b);
      } else {
        NeedsUntouched(c, j.s.front, b);
      }
      hide Intake.Apply, Intake.Enabled;
    }
  }

  lemma NeedsUntouched(c: Config, f: Intake.Front, b: Intake.Action)
    requires Intake.Enabled(c, f, b) && !b.CatEnqueue? && !b.IngestPick? && !b.IngestMove? && !b.IngestSpawn?
    ensures Intake.Apply(c, f, b).needsTesting == f.needsTesting && Intake.Apply(c, f, b).ingest == f.ingest
  {
    if b.CatFilter? {
      FilterLeavesNeeds(c, f, b);
    } else if b.CatList? || b.CatMark? {
    } else {
      GitLeavesNeeds(c, f, b);
    }
    hide Intake.Apply, Intake.Enabled;
  }

  lemma FilterLeavesNeeds(c: Config, f: Intake.Front, b: Intake.Action)
    requires Intake.Enabled(c, f, b) && b.CatFilter?
    ensures Intake.Apply(c, f, b).needsTesting == f.needsTesting && Intake.Apply(c, f, b).ingest == f.ingest
  {
    var series := f.cat[b.id].series;
    hide Intake.Enabled;
    if Intake.Wanted(f.seen, series, b.answer) {
      assert Intake.Apply(c, f, b)
             == f.(cat := f.cat[b.id := Intake.Passed(series.mbox)], passed := f.passed + {b.id});
    } else {
      assert Intake.Apply(c, f, b) == f.(cat := f.cat - {b.id});
    }
    hide Intake.Apply;
  }

  lemma GitLeavesNeeds(c: Config, f: Intake.Front, b: Intake.Action)
    requires Intake.Enabled(c, f, b) && !b.CatList? && !b.CatFilter? && !b.CatMark? && !b.CatEnqueue?
    requires !b.IngestPick? && !b.IngestMove? && !b.IngestSpawn?
    ensures Intake.Apply(c, f, b).needsTesting == f.needsTesting && Intake.Apply(c, f, b).ingest == f.ingest
  {
  }

  /** The step of the front, seen at "needs testing". */
  lemma IngestEvent(c: Config, j: Joint, b: Intake.Action)
    requires Matches(c, IngestLoop, j) && Intake.Enabled(c, j.s.front, b) && Enabled(c, j.s, Front(b))
    requires b.CatEnqueue? || b.IngestPick? || b.IngestMove? || b.IngestSpawn?
    requires b.CatEnqueue? || j.w.pc.Passing?
    requires b.CatEnqueue? ==> b.id !in j.s.front.needsTesting
    ensures var f' := Intake.Apply(c, j.s.front, b);
            EventFits(j, EventOf(c, j.s, IngestLoop, Front(b)), set id | id in f'.needsTesting :: Num(id),
                      if f'.ingest.Picked? then {Num(f'.ingest.id)} else {}, f'.ingest.Resting?)
  {
    var e := EventOf(c, j.s, IngestLoop, Front(b));
    if e.Some? {
      assert Wakeup.Enabled(j.w, e.value);
      Wakeup.StepKeepsInv(j.w, e.value);
    }
    hide Wakeup.Inv;
  }

  // ---- a job watcher ----

  lemma QueueArrival(c: Config, k: nat, j: Joint, x: (Handle, Id))
    requires Sole(c, JobWatcher(k)) && Matches(c, JobWatcher(k), j) && x !in j.s.ci.queue
    ensures var ci' := Ci.Arrive(j.s.ci, x);
            EventFits(j, if x.0 == c.runners[k] then Some(Wakeup.Insert(Num(x.1))) else None,
                      set y | y in ci'.queue && y.0 == c.runners[k] :: Num(y.1),
                      YieldedOf(j.s, JobWatcher(k)), AtRest(j.s, JobWatcher(k)))
  {
    var tree' := set y | y in Ci.Arrive(j.s.ci, x).queue && y.0 == c.runners[k] :: Num(y.1);
    if x.0 == c.runners[k] {
      assert Num(x.1) !in j.w.tree;
      assert tree' == j.w.tree + {Num(x.1)};
      Wakeup.StepKeepsInv(j.w, Wakeup.Insert(Num(x.1)));
    } else {
      assert tree' == j.w.tree;
    }
    hide Wakeup.Inv;
  }

  lemma QueueMove(c: Config, k: nat, j: Joint, b: Ci.Action)
    requires Sole(c, JobWatcher(k)) && Matches(c, JobWatcher(k), j) && Enabled(c, j.s, Runner(b))
    requires b.JobPick? || b.JobStart? || b.JobMove? || b.JobSpawn?
    requires b.k == k ==> j.w.pc.Passing?
    ensures var ci' := Ci.Apply(c, j.s.ci, b);
            EventFits(j, EventOf(c, j.s, JobWatcher(k), Runner(b)),
                      set y | y in ci'.queue && y.0 == c.runners[k] :: Num(y.1),
                      YieldedOf(j.s.(ci := ci'), JobWatcher(k)), AtRest(j.s.(ci := ci'), JobWatcher(k)))
  {
    var ci' := Ci.Apply(c, j.s.ci, b);
    var tree' := set y | y in ci'.queue && y.0 == c.runners[k] :: Num(y.1);
    if b.JobMove? {
      var x := (c.runners[b.k], j.s.ci.jobs[b.k].id);
      assert tree' == if b.k == k then j.w.tree - {Num(x.1)} else j.w.tree;
    } else {
      assert tree' == j.w.tree;
    }
    var e := EventOf(c, j.s, JobWatcher(k), Runner(b));
    if e.Some? {
      assert Wakeup.Enabled(j.w, e.value);
      Wakeup.StepKeepsInv(j.w, e.value);
    }
    hide Wakeup.Inv;
  }

  lemma QueueUntouched(c: Config, k: nat, j: Joint, b: Ci.Action)
    requires Sole(c, JobWatcher(k)) && Matches(c, JobWatcher(k), j) && Enabled(c, j.s, Runner(b))
    requires b.Poll? || b.Report? || b.RoundEnd? || b.Leave?
    ensures Ci.Apply(c, j.s.ci, b).queue == j.s.ci.queue && Ci.Apply(c, j.s.ci, b).jobs == j.s.ci.jobs
  {
  }

  lemma JobFits(c: Config, k: nat, j: Joint, m: Move)
    requires Sole(c, JobWatcher(k)) && Matches(c, JobWatcher(k), j) && CanMove(c, JobWatcher(k), j, m)
    requires m.Step? && !m.a.Crash? && InsertsNew(c, j.s, m.a)
    ensures Fits(c, JobWatcher(k), j, m) && Matches(c, JobWatcher(k), Next(c, JobWatcher(k), j, m))
  {
    hide FormatKey, Ci.Apply, Ci.Enabled, Outbox.Apply, Outbox.Enabled, Ci.Output, Wakeup.Inv;
    hide Intake.Enabled, Intake.Apply, Intake.Output;
    match m.a
    case Front(b) =>
      if Intake.Output(c, j.s.front, b).Some? {
        QueueArrival(c, k, j, Intake.Output(c, j.s.front, b).value);
      }
    case Runner(b) =>
      if b.Poll? || b.Report? || b.RoundEnd? || b.Leave? {
        QueueUntouched(c, k, j, b);
      } else {
        QueueMove(c, k, j, b);
      }
    case Dispatcher(_) =>
  }

  // ---- the dispatcher ----

  lemma ResultArrives(c: Config, j: Joint, h: Handle, id: Id, r: RunnerResult)
    requires Matches(c, DispatchLoop, j) && FormatKey(h, id, r.name) !in j.s.out.dispatch
    ensures var out' := Outbox.Deliver(j.s.out, h, id, r);
            EventFits(j, Some(Wakeup.Insert(Text(FormatKey(h, id, r.name)))),
                      set key | key in out'.dispatch :: Text(key), YieldedOf(j.s, DispatchLoop),
                          AtRest(j.s, DispatchLoop))
  {
    hide FormatKey;
    var key := Text(FormatKey(h, id, r.name));
    assert key !in j.w.tree;
    Wakeup.StepKeepsInv(j.w, Wakeup.Insert(key));
    hide Wakeup.Inv;
  }

  /** What the round knows about the keys it yielded. */
  ghost predicate RoundKeys(p: Outbox.Out) {
    && (!p.pc.Resting? ==> Distinct(p.pc.drop) && forall key <- p.pc.drop :: key in p.dispatch)
    && (p.pc.HoldsKey() ==> p.pc.key in p.dispatch && p.pc.key !in p.pc.drop)
  }

  lemma RoundMove(c: Config, j: Joint, b: Outbox.Action)
    requires Matches(c, DispatchLoop, j) && Enabled(c, j.s, Dispatcher(b)) && RoundKeys(j.s.out)
    requires b.Visit? || b.Remove?
    requires j.w.pc.Passing?
    ensures var out' := Outbox.Apply(c, j.s.out, b);
            EventFits(j, EventOf(c, j.s, DispatchLoop, Dispatcher(b)), set key | key in out'.dispatch :: Text(key),
                      YieldedOf(j.s.(out := out'), DispatchLoop), AtRest(j.s.(out := out'), DispatchLoop))
  {
    var p, out' := j.s.out, Outbox.Apply(c, j.s.out, b);
    var e := EventOf(c, j.s, DispatchLoop, Dispatcher(b)).value;
    if b.Remove? {
      assert p.pc.drop[0] in p.pc.drop;
      assert forall key :: key in p.pc.drop[1..] <==> key in p.pc.drop && key != p.pc.drop[0];
      assert (set key | key in out'.dispatch :: Text(key)) == j.w.tree - {Text(p.pc.drop[0])};
      assert YieldedOf(j.s.(out := out'), DispatchLoop) == j.w.yielded - {Text(p.pc.drop[0])};
    } else {
      assert Text(b.key) !in j.w.yielded;
      assert YieldedOf(j.s.(out := out'), DispatchLoop) == j.w.yielded + {Text(b.key)};
    }
    assert Wakeup.Enabled(j.w, e);
    Wakeup.StepKeepsInv(j.w, e);
    hide Wakeup.Inv;
  }

  lemma RoundStays(c: Config, j: Joint, b: Outbox.Action)
    requires Matches(c, DispatchLoop, j) && Enabled(c, j.s, Dispatcher(b)) && RoundKeys(j.s.out)
    requires !b.Visit? && !b.Remove?
    requires !b.Foreign? ==> j.w.pc.Passing?
    ensures var out' := Outbox.Apply(c, j.s.out, b);
            && out'.dispatch == j.s.out.dispatch
            && YieldedOf(j.s.(out := out'), DispatchLoop) == j.w.yielded
            && (b.Foreign? ==> out'.pc == j.s.out.pc)
  {
    hide Outbox.OnServer, Outbox.CheckFor, Outbox.Sendable, Wakeup.Inv, ParseKey;
  }

  lemma DispatchFits(c: Config, j: Joint, m: Move)
    requires Matches(c, DispatchLoop, j) && CanMove(c, DispatchLoop, j, m) && RoundKeys(j.s.out)
    requires m.Step? && !m.a.Crash? && InsertsNew(c, j.s, m.a)
    ensures Fits(c, DispatchLoop, j, m) && Matches(c, DispatchLoop, Next(c, DispatchLoop, j, m))
  {
    hide FormatKey, Ci.Apply, Ci.Enabled, Outbox.Apply, Outbox.Enabled, Ci.Output, Wakeup.Inv;
    hide Intake.Enabled, Intake.Apply, Intake.Output, RoundKeys;
    match m.a
    case Front(_) =>
    case Runner(b) =>
      if Ci.Output(c, j.s.ci, b).Some? {
        var (h, id, r) := Ci.Output(c, j.s.ci, b).value;
        ResultArrives(c, j, h, id, r);
      }
    case Dispatcher(b) =>
      if b.Visit? || b.Remove? {
        RoundMove(c, j, b);
      } else {
        RoundStays(c, j, b);
      }
  }

  // ---- over whole runs ----

  ghost predicate Good(c: Config, who: Consumer, j: Joint)
    requires Sole(c, who)
  {
    Unique(c, j.s) && Drain.Steady(c, j.s) && Matches(c, who, j)
  }

  lemma NewInserts(c: Config, s: State, a: Action)
    requires Distinct(c.remotes) && Unique(c, s) && Enabled(c, s, a)
    ensures InsertsNew(c, s, a) && RoundKeys(s.out)
  {
    assert Intake.Inv(c, s.front) && Outbox.Faithful(s.out);
    hide Unique, Intake.Inv, Intake.Enabled, Intake.Apply, Intake.Output, Ci.Enabled, Ci.Apply, Ci.Output;
    match a
    case Front(b) => Guarantees.FrontInsertsNew(c, s, b);
    case Runner(b) =>
      if Ci.Output(c, s.ci, b).Some? {
        Guarantees.ReportInsertsNew(c, s, b);
      }
    case _ =>
  }

  lemma StepFits(c: Config, who: Consumer, j: Joint, m: Move)
    requires Sole(c, who) && Distinct(c.remotes) && Unique(c, j.s) && Matches(c, who, j) && CanMove(c, who, j, m)
    ensures Fits(c, who, j, m) && Matches(c, who, Next(c, who, j, m))
  {
    if m.Control? {
      ControlMatches(c, who, j, m);
    } else if m.a.Crash? {
      CrashMatches(c, who, j);
    } else {
      NewInserts(c, j.s, m.a);
      hide Unique, InsertsNew, RoundKeys, Matches, Enabled, Apply, Fits, EventOf, Next;
      match who
      case IngestLoop => IngestFits(c, j, m);
      case JobWatcher(k) => JobFits(c, k, j, m);
      case DispatchLoop => DispatchFits(c, j, m);
    }
  }

  lemma ControlMatches(c: Config, who: Consumer, j: Joint, m: Move)
    requires Sole(c, who) && Matches(c, who, j) && CanMove(c, who, j, m) && m.Control?
    ensures Fits(c, who, j, m) && Matches(c, who, Next(c, who, j, m))
  {
    Wakeup.StepKeepsInv(j.w, m.b);
    RestYields(j.s, who);
    hide Wakeup.Inv, TreeOf, YieldedOf, AtRest;
  }

  lemma RestYields(s: State, who: Consumer)
    ensures AtRest(s, who) ==> YieldedOf(s, who) == {}
  {
  }

  lemma CrashMatches(c: Config, who: Consumer, j: Joint)
    requires Sole(c, who) && Matches(c, who, j)
    ensures CanMove(c, who, j, Step(Crash)) && Fits(c, who, j, Step(Crash))
    ensures Matches(c, who, Next(c, who, j, Step(Crash)))
  {
    hide Wakeup.Inv;
    var s' := Apply(c, j.s, Crash);
    assert Wakeup.Inv(Wakeup.Init(TreeOf(c, s', who))) by { BeginsWell(TreeOf(c, s', who)); }
  }

  lemma BeginsWell(tree: set<Key>)
    ensures Wakeup.Inv(Wakeup.Init(tree))
  {
  }

  lemma BeginGood(c: Config, who: Consumer)
    requires Sole(c, who) && Sighted(c)
    ensures Good(c, who, Begin(c, who))
  {
    InitUnique(c);
    Drain.InitSteady(c);
    BeginsWell(TreeOf(c, Init(c), who));
    hide Wakeup.Inv, Unique, Drain.Steady;
  }

  lemma MoveKeepsGood(c: Config, who: Consumer, j: Joint, m: Move)
    requires Sole(c, who) && WordHandles(c) && Distinct(c.remotes) && Good(c, who, j) && CanMove(c, who, j, m)
    ensures Good(c, who, Next(c, who, j, m))
  {
    hide Unique, Drain.Steady, Matches, Enabled, Apply, EventOf;
    StepFits(c, who, j, m);
    if m.Step? {
      StepKeepsUnique(c, j.s, m.a);
      Drain.StepKeepsSteady(c, j.s, m.a);
    }
  }

  /** A run of the system with the wait of one consumer. */
  predicate Goes(c: Config, who: Consumer, j: Joint, run: seq<Move>)
    requires Sole(c, who)
    decreases |run|
  {
    run != [] ==> CanMove(c, who, j, run[0]) && Goes(c, who, Next(c, who, j, run[0]), run[1..])
  }

  function End(c: Config, who: Consumer, j: Joint, run: seq<Move>): Joint
    requires Sole(c, who) && Goes(c, who, j, run)
    decreases |run|
  {
    if run == [] then j else End(c, who, Next(c, who, j, run[0]), run[1..])
  }

  lemma {:induction false} RunKeepsGood(c: Config, who: Consumer, j: Joint, run: seq<Move>)
    requires Sole(c, who) && WordHandles(c) && Distinct(c.remotes) && Good(c, who, j) && Goes(c, who, j, run)
    ensures Good(c, who, End(c, who, j, run))
    decreases |run|
  {
    hide Good, CanMove, Next;
    if run != [] {
      MoveKeepsGood(c, who, j, run[0]);
      RunKeepsGood(c, who, Next(c, who, j, run[0]), run[1..]);
    }
  }

  lemma Reached(c: Config, who: Consumer, run: seq<Move>)
    requires Sole(c, who) && Sighted(c) && WordHandles(c) && Distinct(c.remotes) && Goes(c, who, Begin(c, who), run)
    ensures Good(c, who, End(c, who, Begin(c, who), run))
  {
    hide Good, Goes, End;
    BeginGood(c, who);
    RunKeepsGood(c, who, Begin(c, who), run);
  }

  /** Each of the three loops is a consumer in the sense of `Wakeup`: whatever it and the others do
      to its tree is what that system allows, in every run, crashes and restarts included. */
  lemma EveryStepFits(c: Config, who: Consumer, run: seq<Move>, m: Move)
    requires Sole(c, who) && Sighted(c) && WordHandles(c) && Distinct(c.remotes) && Goes(c, who, Begin(c, who), run)
    requires CanMove(c, who, End(c, who, Begin(c, who), run), m)
    ensures Fits(c, who, End(c, who, Begin(c, who), run), m)
    ensures End(c, who, Begin(c, who), run).w.tree == TreeOf(c, End(c, who, Begin(c, who), run).s, who)
  {
    Reached(c, who, run);
    hide Goes, End, Unique, Drain.Steady, CanMove, Fits;
    StepFits(c, who, End(c, who, Begin(c, who), run), m);
  }

  /** No consumer sleeps over its tree. */
  lemma NobodyOversleeps(c: Config, who: Consumer, run: seq<Move>)
    requires Sole(c, who) && Sighted(c) && WordHandles(c) && Distinct(c.remotes) && Goes(c, who, Begin(c, who), run)
    ensures var j := End(c, who, Begin(c, who), run);
            Wakeup.Asleep(j.w) ==> TreeOf(c, j.s, who) == {}
  {
    Reached(c, who, run);
    hide Goes, End, Unique, Drain.Steady;
  }

  /** And each key that came into its tree is seen by the next pass of its loop. */
  lemma EachKeyIsSeenByTheNextPass(c: Config, who: Consumer, run: seq<Move>, key: Key)
    requires Sole(c, who) && Sighted(c) && WordHandles(c) && Distinct(c.remotes) && Goes(c, who, Begin(c, who), run)
    requires key in End(c, who, Begin(c, who), run).w.unseen
    ensures var j := End(c, who, Begin(c, who), run);
            key in TreeOf(c, j.s, who) && Wakeup.SeenByNextPass(j.w, key)
  {
    Reached(c, who, run);
    hide Goes, End, Unique, Drain.Steady, Wakeup.Inv;
    Wakeup.UnseenIsNext(End(c, who, Begin(c, who), run).w, key);
  }

  // ---- progress with the wait ----

  /** A step of the system that counts as progress, or a step of the wait. */
  predicate Productive(c: Config, answers: Drain.Answers, who: Consumer, j: Joint, m: Move) {
    CanMove(c, who, j, m) && (m.Step? ==> Drain.Productive(c, answers, j.s, m.a))
  }

  lemma OwnStepNeedsTree(c: Config, who: Consumer, j: Joint, a: Action)
    requires Sole(c, who) && Matches(c, who, j) && !j.w.pc.Passing? && Enabled(c, j.s, a) && Own(who, a)
    requires |j.s.ci.jobs| == |c.runners|
    ensures j.w.tree != {}
  {
    hide Wakeup.Inv;
    match who
    case IngestLoop => assert Num(a.front.id) in j.w.tree;
    case JobWatcher(k) => assert Num(a.ci.id) in j.w.tree;
    case DispatchLoop =>
      var key :| key in j.s.out.dispatch;
      assert Text(key) in j.w.tree;
  }

  lemma Wakes(w: Wakeup.State) returns (b: Wakeup.Action)
    requires Wakeup.Inv(w) && !w.pc.Passing? && w.tree != {}
    ensures (b.First? || b.Second? || b.Wake?) && Wakeup.Enabled(w, b)
  {
    b := match w.pc case Waiting => Wakeup.First case Halfway => Wakeup.Second case _ => Wakeup.Wake;
  }

  /** The step, or a step of the wait on the way to it. */
  lemma GoOrWake(c: Config, who: Consumer, j: Joint, a: Action) returns (m: Move)
    requires Sole(c, who) && Matches(c, who, j) && Enabled(c, j.s, a) && |j.s.ci.jobs| == |c.runners|
    ensures CanMove(c, who, j, m) && (m.Control? || m == Step(a))
  {
    if Own(who, a) && !j.w.pc.Passing? {
      OwnStepNeedsTree(c, who, j, a);
      hide TreeOf, YieldedOf, AtRest, Enabled, Own;
      var b := Wakes(j.w);
      m := Control(b);
    } else {
      m := Step(a);
    }
  }

  lemma SomethingToDo(c: Config, answers: Drain.Answers, who: Consumer, j: Joint) returns (m: Move)
    requires Sole(c, who) && Drain.Staffed(c) && Good(c, who, j)
    requires forall h, id :: Drain.AllFinished(answers(h, id))
    requires Drain.NothingStranded(c, j.s) && !Drain.Drained(j.s)
    ensures Productive(c, answers, who, j, m)
  {
    JobsSize(c, j.s);
    hide Unique, Drain.Steady, Drain.NothingStranded, Drain.Drained, Drain.Productive, Drain.AllFinished, Drain.Staffed;
    hide Matches, CanMove, Enabled;
    var a := Drain.SomethingToDo(c, answers, j.s);
    Drain.ProductiveEnabled(c, answers, j.s, a);
    m := GoOrWake(c, who, j, a);
  }

  lemma JobsSize(c: Config, s: State)
    requires Drain.Steady(c, s)
    ensures |s.ci.jobs| == |c.runners|
  {
    hide Inv, Drain.WorkedOnTended;
  }

  /** Steps of the wait that can follow each other without a step of the system. */
  function WaitRank(w: Wakeup.State): nat {
    match w.pc
    case Passing => if w.must == {} then 4 else 0
    case Waiting => 3
    case Halfway => 2
    case Blocked => if w.events > 0 then 1 else 0
  }

  lemma ControlLowers(c: Config, who: Consumer, j: Joint, m: Move)
    requires Sole(c, who) && Matches(c, who, j) && CanMove(c, who, j, m) && m.Control?
    ensures WaitRank(Next(c, who, j, m).w) < WaitRank(j.w)
  {
    RestYields(j.s, who);
    hide TreeOf, YieldedOf, AtRest;
  }

  predicate ProductiveMoves(c: Config, answers: Drain.Answers, who: Consumer, j: Joint, run: seq<Move>)
    requires Sole(c, who)
    decreases |run|
  {
    run != [] ==>
      Productive(c, answers, who, j, run[0]) && ProductiveMoves(c, answers, who, Next(c, who, j, run[0]), run[1..])
  }

  function Prefix(schedule: nat -> Move, n: nat): (run: seq<Move>)
    ensures |run| == n
  {
    seq(n, i requires 0 <= i < n => schedule(i))
  }

  lemma PrefixTail(schedule: nat -> Move, n: nat)
    ensures var run := Prefix(schedule, n + 1);
            run[0] == schedule(0) && run[1..] == Prefix((i: nat) => schedule(i + 1), n)
  {
  }

  /** However the actors and the wait are scheduled, their steps run out. */
  lemma {:induction false} StepsRunOut(c: Config, answers: Drain.Answers, who: Consumer, j: Joint,
                                       schedule: nat -> Move)
    returns (n: nat)
    requires Sole(c, who) && WordHandles(c) && Distinct(c.remotes) && Good(c, who, j)
    ensures !ProductiveMoves(c, answers, who, j, Prefix(schedule, n))
    decreases |j.s.front.needsTesting.Keys|, Drain.IngestRank(j.s.front.ingest), |j.s.front.spawned|,
              Drain.Sum(j.s.front.git, Drain.GitRank(|c.remotes|)),
              |j.s.ci.queue|, Drain.Sum(j.s.ci.jobs, Drain.JobRank()), Drain.Sum(j.s.ci.watchers, Drain.OpenRank()),
              Drain.Sum(j.s.ci.watchers, Drain.ReportRank()),
              |j.s.out.dispatch.Keys|, Drain.PostRank(j.s.out), WaitRank(j.w)
  {
    hide Good, Drain.Sum, Drain.IngestRank, Drain.PostRank, Drain.GitRank, Drain.JobRank, Drain.OpenRank;
    hide Drain.ReportRank, WaitRank, Productive, CanMove, Next, Prefix;
    var m := schedule(0);
    if Productive(c, answers, who, j, m) {
      MoveLowers(c, answers, who, j, m);
      MoveKeepsGood(c, who, j, m);
      var later := (i: nat) => schedule(i + 1);
      var k := StepsRunOut(c, answers, who, Next(c, who, j, m), later);
      n := k + 1;
      PrefixTail(schedule, k);
    } else {
      n := 1;
      PrefixTail(schedule, 0);
    }
  }

  lemma MoveLowers(c: Config, answers: Drain.Answers, who: Consumer, j: Joint, m: Move)
    requires Sole(c, who) && Good(c, who, j) && Productive(c, answers, who, j, m)
    ensures CanMove(c, who, j, m)
    ensures var j' := Next(c, who, j, m);
            Drain.Less(c, j'.s, j.s) || (j'.s == j.s && WaitRank(j'.w) < WaitRank(j.w))
  {
    hide Unique, Drain.Steady, Matches, Drain.Less, WaitRank, Drain.Productive, CanMove;
    if m.Step? {
      UniqueIsBase(c, j.s);
      StepLowers(c, answers, who, j, m.a);
    } else {
      ControlLowers(c, who, j, m);
      ControlStays(c, who, j, m);
    }
    hide Next;
  }

  lemma ControlStays(c: Config, who: Consumer, j: Joint, m: Move)
    requires Sole(c, who) && CanMove(c, who, j, m) && m.Control?
    ensures Next(c, who, j, m).s == j.s
  {
  }

  lemma StepLowers(c: Config, answers: Drain.Answers, who: Consumer, j: Joint, a: Action)
    requires Sole(c, who) && Base(c, j.s) && CanMove(c, who, j, Step(a)) && Drain.Productive(c, answers, j.s, a)
    ensures Drain.Less(c, Next(c, who, j, Step(a)).s, j.s)
  {
    hide Base, Drain.Less, Drain.Productive, Apply, EventOf, Own;
    Drain.StepLowers(c, answers, j.s, a);
  }

  lemma UniqueIsBase(c: Config, s: State)
    requires Unique(c, s)
    ensures Base(c, s)
  {
    hide Base, Intake.Inv, Ci.Unique, Outbox.Faithful, KeysReported;
  }

  // ---- the pipeline empties, waits included ----

  predicate CalmMove(m: Move) {
    m.Step? ==> Drain.Calm(m.a)
  }

  lemma MoveKeepsStranded(c: Config, who: Consumer, j: Joint, m: Move)
    requires Sole(c, who) && Good(c, who, j) && CanMove(c, who, j, m) && CalmMove(m)
    ensures Drain.NothingStranded(c, Next(c, who, j, m).s) <==> Drain.NothingStranded(c, j.s)
  {
    hide Unique, Matches, Drain.Steady, Drain.NothingStranded, Enabled, Apply, EventOf, Drain.Calm;
    if m.Step? {
      Drain.StepKeepsStranded(c, j.s, m.a);
    }
  }

  lemma {:induction false} RunKeepsStranded(c: Config, who: Consumer, j: Joint, run: seq<Move>)
    requires Sole(c, who) && WordHandles(c) && Distinct(c.remotes) && Good(c, who, j) && Goes(c, who, j, run)
    requires forall m <- run :: CalmMove(m)
    ensures Drain.NothingStranded(c, End(c, who, j, run).s) <==> Drain.NothingStranded(c, j.s)
    decreases |run|
  {
    hide Good, CanMove, Next, CalmMove, Drain.NothingStranded;
    if run != [] {
      assert run[0] in run && forall m <- run[1..] :: m in run;
      MoveKeepsStranded(c, who, j, run[0]);
      MoveKeepsGood(c, who, j, run[0]);
      RunKeepsStranded(c, who, Next(c, who, j, run[0]), run[1..]);
    }
  }

  /** With the wait of any consumer in the system: after a run without crash and without a task that
      gave up, when neither a productive step nor a step of the wait is left, the pipeline is empty. */
  lemma CalmRunsEmpty(c: Config, answers: Drain.Answers, who: Consumer, run: seq<Move>)
    requires Sole(c, who) && Sighted(c) && WordHandles(c) && Distinct(c.remotes) && Drain.Staffed(c)
    requires forall h, id :: Drain.AllFinished(answers(h, id))
    requires Goes(c, who, Begin(c, who), run) && forall m <- run :: CalmMove(m)
    requires forall m :: !Productive(c, answers, who, End(c, who, Begin(c, who), run), m)
    ensures Drain.Drained(End(c, who, Begin(c, who), run).s)
  {
    hide Good, Goes, End, Drain.NothingStranded, Drain.Drained, Drain.AllFinished, Productive, CalmMove;
    hide Drain.Staffed, Sole, WordHandles;
    Drain.NothingStrandedAtFirst(c);
    BeginGood(c, who);
    RunKeepsStranded(c, who, Begin(c, who), run);
    Reached(c, who, run);
    var j := End(c, who, Begin(c, who), run);
    if !Drain.Drained(j.s) {
      var m := SomethingToDo(c, answers, who, j);
    }
  }

  /** And they do run out. */
  lemma EveryScheduleRunsOut(c: Config, answers: Drain.Answers, who: Consumer, run: seq<Move>, schedule: nat -> Move)
    returns (n: nat)
    requires Sole(c, who) && Sighted(c) && WordHandles(c) && Distinct(c.remotes) && Goes(c, who, Begin(c, who), run)
    ensures !ProductiveMoves(c, answers, who, End(c, who, Begin(c, who), run), Prefix(schedule, n))
  {
    hide Good, Goes, End, ProductiveMoves;
    Reached(c, who, run);
    n := StepsRunOut(c, answers, who, End(c, who, Begin(c, who), run), schedule);
  }
}
