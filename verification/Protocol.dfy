/** The whole pipeline: the three parts side by side, joined by the insertion into a runner
    queue and the insertion into "needs dispatch", and a crash that keeps only the trees. */
module Protocol {
  import opened Basics
  import opened Codec
  import Intake
  import Ci
  import Outbox

  datatype State = State(front: Intake.Front, ci: Ci.Ci, out: Outbox.Out)

  datatype Action =
    | Front(front: Intake.Action)
    | Runner(ci: Ci.Action)
    | Dispatcher(out: Outbox.Action)
    | Crash

  function Init(c: Config): State {
    State(Intake.Init(c), Ci.Init(c), Outbox.Init())
  }

  predicate Enabled(c: Config, s: State, a: Action) {
    match a
    case Front(b) => Intake.Enabled(c, s.front, b)
    case Runner(b) => Ci.Enabled(c, s.ci, b)
    case Dispatcher(b) => Outbox.Enabled(c, s.out, b)
    case Crash => true
  }

  function Apply(c: Config, s: State, a: Action): State
    requires Enabled(c, s, a)
  {
    match a
    case Front(b) =>
      State(Intake.Apply(c, s.front, b),
            match Intake.Output(c, s.front, b) case None => s.ci case Some(x) => Ci.Arrive(s.ci, x),
            s.out)
    case Runner(b) =>
      State(s.front, Ci.Apply(c, s.ci, b),
            match Ci.Output(c, s.ci, b) case None => s.out case Some(x) => Outbox.Deliver(s.out, x.0, x.1, x.2))
    case Dispatcher(b) =>
      State(s.front, s.ci, Outbox.Apply(c, s.out, b))
    case Crash =>
      State(Intake.Crash(s.front), Ci.Crash(s.ci), Outbox.Crash(s.out))
  }

  // ---- runs ----

  predicate Legal(c: Config, s: State, run: seq<Action>)
    decreases |run|
  {
    run == [] || (Enabled(c, s, run[0]) && Legal(c, Apply(c, s, run[0]), run[1..]))
  }

  function Run(c: Config, s: State, run: seq<Action>): State
    requires Legal(c, s, run)
    decreases |run|
  {
    if run == [] then s else Run(c, Apply(c, s, run[0]), run[1..])
  }

  lemma {:induction false} RunAppend(c: Config, s: State, first: seq<Action>, second: seq<Action>)
    requires Legal(c, s, first) && Legal(c, Run(c, s, first), second)
    ensures Legal(c, s, first + second) && Run(c, s, first + second) == Run(c, Run(c, s, first), second)
    decreases |first|
  {
    if first == [] {
      assert first + second == second;
    } else {
      assert (first + second)[1..] == first[1..] + second;
      RunAppend(c, Apply(c, s, first[0]), first[1..], second);
    }
  }

  lemma {:induction false} LegalSplit(c: Config, s: State, first: seq<Action>, second: seq<Action>)
    requires Legal(c, s, first + second)
    ensures Legal(c, s, first) && Legal(c, Run(c, s, first), second)
    ensures Run(c, s, first + second) == Run(c, Run(c, s, first), second)
    decreases |first|
  {
    if first == [] {
      assert first + second == second;
    } else {
      assert (first + second)[1..] == first[1..] + second;
      LegalSplit(c, Apply(c, s, first[0]), first[1..], second);
    }
  }

  // ---- the invariant ----

  /** Handles are single words; the only one in the program is "github". */
  predicate WordHandles(c: Config) {
    forall h <- c.remotes :: SpaceFree(h)
  }

  /** The parts agree on what passed between them. */
  ghost predicate Coupled(s: State) {
    && s.front.queued == s.ci.arrived
    && s.out.inbox <= s.ci.finished
    && (forall h, id, n :: (h, id, n) in s.ci.reported ==> FormatKey(h, id, n) in s.out.received)
    && (forall h, id :: (h, id) in s.ci.arrived ==> SpaceFree(h))
  }

  /** What holds even if look-ups of seen series fail. */
  ghost predicate Base(c: Config, s: State) {
    && Intake.Rooted(c, s.front)
    && Ci.Sound(c, s.ci)
    && Outbox.Sound(c, s.out)
    && Coupled(s)
  }

  ghost predicate Inv(c: Config, s: State) {
    Base(c, s) && Intake.Inv(c, s.front)
  }

  lemma InitBase(c: Config)
    ensures Base(c, Init(c))
  {
    Intake.InitRooted(c);
    Ci.SoundInit(c);
    Outbox.SoundInit(c);
  }

  lemma InitInv(c: Config)
    requires Sighted(c)
    ensures Inv(c, Init(c))
  {
    InitBase(c);
    Intake.InitInv(c);
  }

  lemma FrontOutput(c: Config, f: Intake.Front, b: Intake.Action)
    requires Intake.Enabled(c, f, b)
    ensures match Intake.Output(c, f, b)
            case None => Intake.Apply(c, f, b).queued == f.queued
            case Some(x) => Intake.Apply(c, f, b).queued == f.queued + multiset{x} && x.0 in c.remotes
  {
  }

  lemma CiOutput(c: Config, s: Ci.Ci, b: Ci.Action)
    requires Ci.Sound(c, s) && Ci.Enabled(c, s, b)
    ensures Ci.Apply(c, s, b).arrived == s.arrived && s.finished <= Ci.Apply(c, s, b).finished
    ensures match Ci.Output(c, s, b)
            case None => Ci.Apply(c, s, b).reported == s.reported
            case Some((h, id, r)) =>
              && (h, id, r) in s.finished && (h, id) in s.arrived
              && Ci.Apply(c, s, b).reported == s.reported + multiset{(h, id, r.name)}
  {
    Ci.SoundStep(c, s, b);
  }

  lemma OutKeeps(c: Config, p: Outbox.Out, b: Outbox.Action)
    requires Outbox.Enabled(c, p, b)
    ensures Outbox.Apply(c, p, b).inbox == p.inbox && Outbox.Apply(c, p, b).received == p.received
  {
  }

  lemma StepKeepsInv(c: Config, s: State, a: Action)
    requires WordHandles(c) && Inv(c, s) && Enabled(c, s, a)
    ensures Inv(c, Apply(c, s, a))
  {
    hide Base, Intake.Inv, Enabled, Apply;
    StepKeepsBase(c, s, a);
    StepKeepsFront(c, s, a);
  }

  lemma StepKeepsBase(c: Config, s: State, a: Action)
    requires WordHandles(c) && Base(c, s) && Enabled(c, s, a)
    ensures Base(c, Apply(c, s, a))
  {
    hide Intake.Rooted, Ci.Sound, Outbox.Sound, Intake.Enabled, Ci.Enabled, Outbox.Enabled;
    hide Intake.Apply, Ci.Apply, Outbox.Apply, Intake.Output, Ci.Output, FormatKey;
    match a
    case Front(b) =>
      Intake.StepKeepsRooted(c, s.front, b);
      FrontOutput(c, s.front, b);
      match Intake.Output(c, s.front, b) {
        case None =>
        case Some(x) => Ci.SoundArrive(c, s.ci, x);
      }
    case Runner(b) =>
      Ci.SoundStep(c, s.ci, b);
      CiOutput(c, s.ci, b);
      match Ci.Output(c, s.ci, b) {
        case None =>
        case Some((h, id, r)) => Outbox.SoundDeliver(c, s.out, h, id, r);
      }
    case Dispatcher(b) =>
      Outbox.SoundStep(c, s.out, b);
      OutKeeps(c, s.out, b);
    case Crash =>
      Intake.CrashKeepsRooted(c, s.front);
      Ci.SoundCrash(c, s.ci);
      Outbox.SoundCrash(c, s.out);
  }

  // ---- the invariant when no two remotes share a handle ----

  /** Every key ever handed over stands for a report that was made. */
  ghost predicate KeysReported(s: State) {
    forall key :: key in s.out.received ==>
      ParseKey(key).Some? &&
      var q := ParseKey(key).value; (q.handle, q.series, q.name) in s.ci.reported
  }

  ghost predicate Unique(c: Config, s: State) {
    && Inv(c, s)
    && Ci.Unique(c, s.ci)
    && Outbox.Faithful(s.out)
    && KeysReported(s)
  }

  lemma InitUnique(c: Config)
    requires Sighted(c)
    ensures Unique(c, Init(c))
  {
    InitInv(c);
    Ci.UniqueInit(c);
  }

  /** With distinct remotes a runner queue gets a series at most once. */
  lemma QueuedAtMostOnce(c: Config, f: Intake.Front, h: Handle, id: Id)
    requires Distinct(c.remotes) && Intake.Inv(c, f)
    ensures f.queued[(h, id)] <= 1
  {
    if id in f.stage {
      MultiplicityOne(c.remotes[..Intake.RemotesDone(c.remotes, f.stage[id])], h);
    }
  }

  lemma {:induction false} MultiplicityOne(s: seq<Handle>, h: Handle)
    requires Distinct(s)
    ensures multiset(s)[h] <= 1
  {
    if s != [] {
      var front, last := s[..|s| - 1], s[|s| - 1];
      assert s == front + [last];
      MultiplicityOne(front, h);
    }
  }

  /** A first report travels to the tree under a key that was never used. */
  lemma DeliverKeepsUnique(s: State, ci': Ci.Ci, h: Handle, id: Id, r: RunnerResult)
    requires KeysReported(s) && Outbox.Faithful(s.out) && Outbox.Conserved(s.out) && SpaceFree(h)
    requires (h, id, r.name) !in s.ci.reported && ci'.reported == s.ci.reported + multiset{(h, id, r.name)}
    ensures KeysReported(State(s.front, ci', Outbox.Deliver(s.out, h, id, r)))
    ensures Outbox.Faithful(Outbox.Deliver(s.out, h, id, r))
  {
    hide ParseKey, FormatKey, Outbox.Faithful;
    KeyRoundTrip(h, id, r.name);
    Outbox.FaithfulDeliver(s.out, h, id, r);
  }

  /** What the invariant says about the output of a completion watcher. */
  lemma ReportFacts(c: Config, s: State, b: Ci.Action)
    requires Inv(c, s) && Ci.Enabled(c, s.ci, b)
    ensures Outbox.Conserved(s.out)
    ensures match Ci.Output(c, s.ci, b)
            case None => Ci.Apply(c, s.ci, b).reported == s.ci.reported
            case Some((h, id, r)) =>
              && SpaceFree(h)
              && Ci.Apply(c, s.ci, b).reported == s.ci.reported + multiset{(h, id, r.name)}
  {
    CiOutput(c, s.ci, b);
  }

  lemma RunnerKeepsUnique(c: Config, s: State, b: Ci.Action)
    requires WordHandles(c) && Distinct(c.remotes) && Unique(c, s) && Ci.Enabled(c, s.ci, b)
    ensures Unique(c, Apply(c, s, Runner(b)))
  {
    hide Inv, Ci.Enabled, Ci.Unique, Ci.Apply, Ci.Output, Outbox.Faithful, Outbox.Deliver, Outbox.Conserved, ParseKey;
    StepKeepsInv(c, s, Runner(b));
    ReportFacts(c, s, b);
    Ci.UniqueStep(c, s.ci, b);
    match Ci.Output(c, s.ci, b) {
      case None =>
      case Some((h, id, r)) => DeliverKeepsUnique(s, Ci.Apply(c, s.ci, b), h, id, r);
    }
  }

  lemma FrontKeepsUnique(c: Config, s: State, b: Intake.Action)
    requires WordHandles(c) && Distinct(c.remotes) && Unique(c, s) && Intake.Enabled(c, s.front, b)
    ensures Unique(c, Apply(c, s, Front(b)))
  {
    hide Intake.Inv, Ci.Sound, Outbox.Sound, Intake.Enabled, Ci.Unique, Intake.Apply, Intake.Output;
    hide Outbox.Faithful, ParseKey, FormatKey;
    StepKeepsInv(c, s, Front(b));
    FrontOutput(c, s.front, b);
    match Intake.Output(c, s.front, b) {
      case None =>
      case Some(x) =>
        QueuedAtMostOnce(c, Apply(c, s, Front(b)).front, x.0, x.1);
        Ci.UniqueArrive(c, s.ci, x);
    }
  }

  lemma StepKeepsUnique(c: Config, s: State, a: Action)
    requires WordHandles(c) && Distinct(c.remotes) && Unique(c, s) && Enabled(c, s, a)
    ensures Unique(c, Apply(c, s, a))
  {
    hide Inv, Intake.Enabled, Ci.Enabled, Outbox.Enabled, Ci.Unique, Outbox.Faithful;
    hide Intake.Apply, Ci.Apply, Outbox.Apply, Intake.Output, Ci.Output, ParseKey;
    StepKeepsInv(c, s, a);
    match a
    case Front(b) => FrontKeepsUnique(c, s, b);
    case Runner(b) => RunnerKeepsUnique(c, s, b);
    case Dispatcher(b) =>
      OutKeeps(c, s.out, b);
      Outbox.FaithfulStep(c, s.out, b);
    case Crash =>
      Ci.UniqueCrash(c, s.ci);
      FaithfulCrash(s.out);
  }

  lemma FaithfulCrash(p: Outbox.Out)
    requires Outbox.Faithful(p)
    ensures Outbox.Faithful(Outbox.Crash(p))
  {
  }

  // ---- over whole runs ----

  lemma {:induction false} RunKeepsInv(c: Config, s: State, run: seq<Action>)
    requires WordHandles(c) && Inv(c, s) && Legal(c, s, run)
    ensures Inv(c, Run(c, s, run))
    decreases |run|
  {
    hide Inv, Enabled, Apply;
    if run != [] {
      StepKeepsInv(c, s, run[0]);
      RunKeepsInv(c, Apply(c, s, run[0]), run[1..]);
    }
  }

  lemma {:induction false} RunKeepsUnique(c: Config, s: State, run: seq<Action>)
    requires WordHandles(c) && Distinct(c.remotes) && Unique(c, s) && Legal(c, s, run)
    ensures Unique(c, Run(c, s, run))
    decreases |run|
  {
    hide Unique, Enabled, Apply;
    if run != [] {
      StepKeepsUnique(c, s, run[0]);
      RunKeepsUnique(c, Apply(c, s, run[0]), run[1..]);
    }
  }

  lemma {:induction false} RunKeepsFront(c: Config, s: State, run: seq<Action>)
    requires Intake.Inv(c, s.front) && Legal(c, s, run)
    ensures Intake.Inv(c, Run(c, s, run).front)
    decreases |run|
  {
    if run != [] {
      StepKeepsFront(c, s, run[0]);
      hide Intake.Inv, Enabled, Apply;
      RunKeepsFront(c, Apply(c, s, run[0]), run[1..]);
    }
  }

  lemma StepKeepsFront(c: Config, s: State, a: Action)
    requires Intake.Inv(c, s.front) && Enabled(c, s, a)
    ensures Intake.Inv(c, Apply(c, s, a).front)
  {
    hide Intake.Inv, Intake.Enabled, Intake.Apply, Intake.Crash, Ci.Apply, Outbox.Apply;
    match a
    case Front(b) => Intake.StepKeepsInv(c, s.front, b);
    case Crash => Intake.CrashKeepsInv(c, s.front);
    case _ =>
  }

  /** The front part is sound whatever the handles are. */
  lemma ReachedFront(c: Config, run: seq<Action>)
    requires Sighted(c) && Legal(c, Init(c), run)
    ensures Intake.Inv(c, Run(c, Init(c), run).front)
  {
    Intake.InitInv(c);
    RunKeepsFront(c, Init(c), run);
  }

  lemma {:induction false} RunKeepsBase(c: Config, s: State, run: seq<Action>)
    requires WordHandles(c) && Base(c, s) && Legal(c, s, run)
    ensures Base(c, Run(c, s, run))
    decreases |run|
  {
    hide Base, Enabled, Apply;
    if run != [] {
      StepKeepsBase(c, s, run[0]);
      RunKeepsBase(c, Apply(c, s, run[0]), run[1..]);
    }
  }

  /** What holds whatever the look-ups give. */
  lemma ReachedBase(c: Config, run: seq<Action>)
    requires WordHandles(c) && Legal(c, Init(c), run)
    ensures Base(c, Run(c, Init(c), run))
  {
    InitBase(c);
    RunKeepsBase(c, Init(c), run);
  }

  lemma Reached(c: Config, run: seq<Action>)
    requires Sighted(c) && WordHandles(c) && Legal(c, Init(c), run)
    ensures Inv(c, Run(c, Init(c), run))
    ensures Distinct(c.remotes) ==> Unique(c, Run(c, Init(c), run))
  {
    InitInv(c);
    RunKeepsInv(c, Init(c), run);
    if Distinct(c.remotes) {
      InitUnique(c);
      RunKeepsUnique(c, Init(c), run);
    }
  }
}
