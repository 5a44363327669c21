/** The loops of the actors are runs of the transition system: what each method leaves in the
    trees is a state the system reaches by steps of that actor alone. */
module Refinement {
  import opened Basics
  import opened Codec
  import opened Protocol
  import Intake
  import Ci
  import Outbox
  import Watching
  import Dispatching
  import GitWork
  import Guarantees
  import Database
  import Trees

  lemma Then(c: Config, s: State, run: seq<Action>, a: Action)
    requires Legal(c, s, run) && Enabled(c, Run(c, s, run), a)
    ensures Legal(c, s, run + [a]) && Run(c, s, run + [a]) == Apply(c, Run(c, s, run), a)
  {
    var m := Run(c, s, run);
    assert Legal(c, Apply(c, m, a), []) && [a][1..] == [];
    assert Legal(c, m, [a]) && Run(c, m, [a]) == Apply(c, m, a);
    RunAppend(c, s, run, [a]);
  }

  lemma First(c: Config, s: State, a: Action, rest: seq<Action>)
    requires Enabled(c, s, a) && Legal(c, Apply(c, s, a), rest)
    ensures Legal(c, s, [a] + rest) && Run(c, s, [a] + rest) == Run(c, Apply(c, s, a), rest)
  {
    assert ([a] + rest)[0] == a && ([a] + rest)[1..] == rest;
  }

  lemma Stay(c: Config, s: State)
    ensures Legal(c, s, []) && Run(c, s, []) == s
  {
  }

  // ---- the completion watcher ----

  function Delivered(dispatch: map<string, RunnerResult>, h: Handle, id: Id, news: seq<RunnerResult>)
    : map<string, RunnerResult>
    decreases |news|
  {
    if news == [] then dispatch else Delivered(dispatch[FormatKey(h, id, news[0].name) := news[0]], h, id, news[1..])
  }

  lemma {:induction false} DeliveredHolds(tree: Database.Tree, dispatch: map<string, RunnerResult>, h: Handle, id: Id,
                                          news: seq<RunnerResult>)
    requires Dispatching.Holds(tree, dispatch)
    ensures Dispatching.Holds(Watching.Written(tree, h, id, news), Delivered(dispatch, h, id, news))
    decreases |news|
  {
    hide FormatKey;
    if news != [] {
      var key := FormatKey(h, id, news[0].name);
      DeliveredHolds(tree[Database.Text(key) := Database.Result(news[0])], dispatch[key := news[0]], h, id, news[1..]);
    }
  }

  /** Watcher `t` goes from `v` to `v'` having handed over some results. */
  ghost predicate Watched(s: State, s': State, t: nat, v': Ci.Watcher, news: seq<RunnerResult>) {
    && t < |s.ci.watchers|
    && s'.ci.watchers == s.ci.watchers[t := v']
    && s'.out.dispatch == Delivered(s.out.dispatch, s.ci.watchers[t].handle, s.ci.watchers[t].id, news)
    && s'.front == s.front && s'.ci.queue == s.ci.queue && s'.ci.jobs == s.ci.jobs && s'.out.checks == s.out.checks
  }

  lemma {:induction false} DeliveredConcat(dispatch: map<string, RunnerResult>, h: Handle, id: Id, a: seq<RunnerResult>,
                                           b: seq<RunnerResult>)
    ensures Delivered(dispatch, h, id, a + b) == Delivered(Delivered(dispatch, h, id, a), h, id, b)
    decreases |a|
  {
    hide FormatKey;
    if a == [] {
      assert a + b == b;
    } else {
      assert (a + b)[1..] == a[1..] + b;
      DeliveredConcat(dispatch[FormatKey(h, id, a[0].name) := a[0]], h, id, a[1..], b);
    }
  }

  /** The watcher once it has gone through `jobs`. */
  function After(v: Ci.Watcher, jobs: seq<RunnerResult>, pc: Ci.WatchPc): Ci.Watcher {
    v.(completed := v.completed + Watching.Names(Watching.News(v.completed, jobs)), pc := pc)
  }

  lemma WatchedTwice(s: State, s1: State, s2: State, t: nat, v1: Ci.Watcher, first: seq<RunnerResult>, v2: Ci.Watcher,
                     second: seq<RunnerResult>)
    requires Watched(s, s1, t, v1, first) && Watched(s1, s2, t, v2, second)
    requires v1.handle == s.ci.watchers[t].handle && v1.id == s.ci.watchers[t].id
    ensures Watched(s, s2, t, v2, first + second)
  {
    DeliveredConcat(s.out.dispatch, v1.handle, v1.id, first, second);
  }

  /** Two stretches of reporting, for the jobs `a` and then `b`, are one for both. */
  lemma ReportedTwice(s: State, s1: State, s2: State, t: nat, a: seq<RunnerResult>, b: seq<RunnerResult>,
                      pc1: Ci.WatchPc, pc2: Ci.WatchPc)
    requires t < |s.ci.watchers| &&
             Watched(s, s1, t, After(s.ci.watchers[t], a, pc1), Watching.News(s.ci.watchers[t].completed, a))
    requires t < |s1.ci.watchers| && s1.ci.watchers[t] == After(s.ci.watchers[t], a, pc1)
    requires Watched(s1, s2, t, After(s1.ci.watchers[t], b, pc2), Watching.News(s1.ci.watchers[t].completed, b))
    ensures Watched(s, s2, t, After(s.ci.watchers[t], a + b, pc2), Watching.News(s.ci.watchers[t].completed, a + b))
  {
    hide Watched, Watching.News, Watching.Names;
    var v, v1 := s.ci.watchers[t], s1.ci.watchers[t];
    var first, second := Watching.News(v.completed, a), Watching.News(v1.completed, b);
    Watching.NewsAppend(v.completed, a, b);
    Watching.NamesConcat(first, second);
    assert v.completed + Watching.Names(first) + Watching.Names(second) ==
           v.completed + (Watching.Names(first) + Watching.Names(second));
    WatchedTwice(s, s1, s2, t, v1, first, After(v1, b, pc2), second);
  }

  /** The watcher's own entry after some results. */
  lemma WatchedAt(s: State, s': State, t: nat, v': Ci.Watcher, news: seq<RunnerResult>)
    requires Watched(s, s', t, v', news)
    ensures t < |s'.ci.watchers| && s'.ci.watchers[t] == v'
  {
  }

  lemma {:induction false} ReportingRuns(c: Config, s: State, t: nat) returns (run: seq<Action>)
    requires t < |s.ci.watchers| && s.ci.watchers[t].pc.Reporting?
    ensures var v := s.ci.watchers[t];
            && Legal(c, s, run)
            && Watched(s, Run(c, s, run), t, After(v, v.pc.todo, Ci.Reporting([], v.pc.all)),
                       Watching.News(v.completed, v.pc.todo))
            && Run(c, s, run).ci.working == s.ci.working
    decreases |s.ci.watchers[t].pc.todo|
  {
    hide Legal, Run, Enabled, Apply, Watched, Watching.Names;
    var v := s.ci.watchers[t];
    var todo := v.pc.todo;
    if todo == [] {
      run := [];
      Stay(c, s);
      NothingWatched(s, t, v);
    } else {
      hide Watching.News;
      var s1 := ReportOne(c, s, t);
      WatchedAt(s, s1, t, After(v, [todo[0]], Ci.Reporting(todo[1..], v.pc.all)),
                Watching.News(v.completed, [todo[0]]));
      var rest := ReportingRuns(c, s1, t);
      First(c, s, Runner(Ci.Report(t)), rest);
      run := [Runner(Ci.Report(t))] + rest;
      assert [todo[0]] + todo[1..] == todo;
      ReportedTwice(s, s1, Run(c, s, run), t, [todo[0]], todo[1..], Ci.Reporting(todo[1..], v.pc.all),
                    Ci.Reporting([], v.pc.all));
    }
  }

  lemma NothingWatched(s: State, t: nat, v: Ci.Watcher)
    requires t < |s.ci.watchers| && v == s.ci.watchers[t]
    ensures Watched(s, s, t, v, []) && Watching.Names([]) == [] && v.completed + [] == v.completed
  {
    assert s.ci.watchers[t := v] == s.ci.watchers;
  }

  /** One job of an answer. */
  lemma ReportOne(c: Config, s: State, t: nat) returns (s1: State)
    requires t < |s.ci.watchers| && s.ci.watchers[t].pc.Reporting? && s.ci.watchers[t].pc.todo != []
    ensures Enabled(c, s, Runner(Ci.Report(t))) && s1 == Apply(c, s, Runner(Ci.Report(t)))
    ensures var v := s.ci.watchers[t];
            && Watched(s, s1, t, After(v, [v.pc.todo[0]], Ci.Reporting(v.pc.todo[1..], v.pc.all)),
                       Watching.News(v.completed, [v.pc.todo[0]]))
            && s1.ci.working == s.ci.working
  {
    hide FormatKey, Watching.News;
    var v, r := s.ci.watchers[t], s.ci.watchers[t].pc.todo[0];
    s1 := Apply(c, s, Runner(Ci.Report(t)));
    var news := Watching.News(v.completed, [r]);
    Watching.NewsOfOne(v.completed, r);
    if r.name in v.completed {
      assert Watching.Names(news) == [] && v.completed + [] == v.completed;
    } else {
      assert Watching.Names(news) == [r.name] && news[1..] == [];
      assert Delivered(s.out.dispatch[FormatKey(v.handle, v.id, r.name) := r], v.handle, v.id, []) == s1.out.dispatch;
    }
  }

  /** One answer: poll, report, and either ask again or leave. */
  lemma AnswerRuns(c: Config, s: State, t: nat, jobs: seq<RunnerResult>) returns (run: seq<Action>)
    requires t < |s.ci.watchers| && s.ci.watchers[t].pc.Polling?
    ensures var v := s.ci.watchers[t];
            var finished := Ci.FinishedOf(jobs);
            var done := Watching.Stops(Some(jobs));
            && Legal(c, s, run)
            && Watched(s, Run(c, s, run), t, After(v, finished, if done then Ci.Gone else Ci.Polling),
                       Watching.News(v.completed, finished))
            && Run(c, s, run).ci.working == s.ci.working - if done then {Ci.Pair(v)} else {}
  {
    hide FormatKey, Watching.News, Watching.Names, Legal, Run, Delivered;
    var v := s.ci.watchers[t];
    var s1 := Apply(c, s, Runner(Ci.Poll(t, jobs)));
    var reports := ReportingRuns(c, s1, t);
    First(c, s, Runner(Ci.Poll(t, jobs)), reports);
    run := [Runner(Ci.Poll(t, jobs))] + reports;
    Then(c, s, run, Runner(Ci.RoundEnd(t)));
    run := run + [Runner(Ci.RoundEnd(t))];
    if Watching.Stops(Some(jobs)) {
      Then(c, s, run, Runner(Ci.Leave(t)));
      run := run + [Runner(Ci.Leave(t))];
    }
  }

  /** Any number of answers that do not end the watch. */
  lemma {:induction false} AskingRuns(c: Config, s: State, t: nat, polls: seq<Watching.Poll>) returns (run: seq<Action>)
    requires t < |s.ci.watchers| && s.ci.watchers[t].pc.Polling?
    requires Watching.NoneStops(polls)
    ensures var v := s.ci.watchers[t];
            var heard := Watching.Heard(polls);
            && Legal(c, s, run)
            && Watched(s, Run(c, s, run), t, After(v, heard, Ci.Polling), Watching.News(v.completed, heard))
            && Run(c, s, run).ci.working == s.ci.working
    decreases |polls|
  {
    var v := s.ci.watchers[t];
    if polls == [] {
      run := [];
      Stay(c, s);
      NothingWatched(s, t, v);
    } else {
      HeardMore(polls);
      hide Watching.News, Watching.Names, Legal, Run, Watched, FormatKey, Enabled, Apply, Ci.FinishedOf;
      hide Watching.Heard, Watching.Stops, Watching.NoneStops;
      var finished, heard := Ci.FinishedOf(polls[0].value), Watching.Heard(polls[1..]);
      assert polls[0] == Some(polls[0].value);
      run := AnswerRuns(c, s, t, polls[0].value);
      var s1 := Run(c, s, run);
      WatchedAt(s, s1, t, After(v, finished, Ci.Polling), Watching.News(v.completed, finished));
      var more := AskingRuns(c, s1, t, polls[1..]);
      RunAppend(c, s, run, more);
      run := run + more;
      ReportedTwice(s, s1, Run(c, s, run), t, finished, heard, Ci.Polling, Ci.Polling);
    }
  }

  lemma HeardMore(polls: seq<Watching.Poll>)
    requires polls != [] && Watching.NoneStops(polls)
    ensures polls[0].Some? && !Watching.Stops(polls[0]) && Watching.NoneStops(polls[1..])
    ensures Watching.Heard(polls) == Ci.FinishedOf(polls[0].value) + Watching.Heard(polls[1..])
  {
    assert !Watching.Stops(polls[0]);
  }

  /** How the last answer adds to what was heard before it. */
  lemma HeardLast(polls: seq<Watching.Poll>, k: nat)
    requires 0 < k <= |polls| && Watching.NoneStops(polls[..k - 1]) && Watching.Stops(polls[k - 1])
    ensures Watching.Heard(polls) ==
            Watching.Heard(polls[..k - 1]) + if polls[k - 1].Some? then Ci.FinishedOf(polls[k - 1].value) else []
  {
    var before, rest := polls[..k - 1], polls[k - 1..];
    assert polls == before + rest && rest[0] == polls[k - 1] && before + [] == before;
    Watching.HeardSplit(before, rest);
    Watching.HeardSplit(before, []);
  }

  /** Where the watcher is after a watch: gone, killed with the process, or about to ask again. */
  ghost predicate Ended(s: State, t: nat, end: Watching.End) {
    match end
    case AllDone(_) => t < |s.ci.watchers| && s.ci.watchers[t].pc.Gone?
    case AskFailed(_) => s.ci.watchers == []
    case StillWaiting => t < |s.ci.watchers| && s.ci.watchers[t].pc.Polling?
  }

  /** The whole watch, however it ends. An error of the runner ends the process. */
  lemma WatchRuns(c: Config, s: State, t: nat, polls: seq<Watching.Poll>, end: Watching.End) returns (run: seq<Action>)
    requires t < |s.ci.watchers| && s.ci.watchers[t].pc.Polling?
    requires Watching.EndsAt(polls, end)
    ensures Legal(c, s, run)
    ensures var v, s' := s.ci.watchers[t], Run(c, s, run);
            && s'.out.dispatch ==
               Delivered(s.out.dispatch, v.handle, v.id, Watching.News(v.completed, Watching.Heard(polls)))
            && s'.ci.working == s.ci.working - (if end.AllDone? then {Ci.Pair(v)} else {})
            && Ended(s', t, end)
            && Trees.SameFront(s, s') && s'.ci.queue == s.ci.queue
  {
    match end
    case AllDone(k) => run := WatchToTheEnd(c, s, t, polls, k);
    case AskFailed(k) => run := WatchToError(c, s, t, polls, k);
    case StillWaiting =>
      hide Legal, Run, Watching.News, Watching.Heard, Watching.Names, Delivered;
      run := AskingRuns(c, s, t, polls);
  }

  lemma WatchToTheEnd(c: Config, s: State, t: nat, polls: seq<Watching.Poll>, k: nat) returns (run: seq<Action>)
    requires t < |s.ci.watchers| && s.ci.watchers[t].pc.Polling?
    requires Watching.EndsAt(polls, Watching.AllDone(k))
    ensures Legal(c, s, run)
    ensures var v, s', heard := s.ci.watchers[t], Run(c, s, run), Watching.Heard(polls);
            && Watched(s, s', t, After(v, heard, Ci.Gone), Watching.News(v.completed, heard))
            && s'.ci.working == s.ci.working - {Ci.Pair(v)}
  {
    HeardLast(polls, k);
    hide Watching.News, Watching.Names, Legal, Run, Watched, FormatKey, Enabled, Apply, Ci.FinishedOf;
    hide Watching.Heard, Watching.Stops;
    var v, before, last := s.ci.watchers[t], polls[..k - 1], polls[k - 1];
    var heard, finished := Watching.Heard(before), Ci.FinishedOf(last.value);
    run := AskingRuns(c, s, t, before);
    var s1 := Run(c, s, run);
    WatchedAt(s, s1, t, After(v, heard, Ci.Polling), Watching.News(v.completed, heard));
    assert last == Some(last.value);
    var more := AnswerRuns(c, s1, t, last.value);
    RunAppend(c, s, run, more);
    run := run + more;
    ReportedTwice(s, s1, Run(c, s, run), t, heard, finished, Ci.Polling, Ci.Gone);
  }

  lemma WatchToError(c: Config, s: State, t: nat, polls: seq<Watching.Poll>, k: nat) returns (run: seq<Action>)
    requires t < |s.ci.watchers| && s.ci.watchers[t].pc.Polling?
    requires Watching.EndsAt(polls, Watching.AskFailed(k))
    ensures Legal(c, s, run)
    ensures var v, s' := s.ci.watchers[t], Run(c, s, run);
            && s'.out.dispatch ==
               Delivered(s.out.dispatch, v.handle, v.id, Watching.News(v.completed, Watching.Heard(polls)))
            && s'.ci.working == s.ci.working && s'.ci.watchers == []
            && Trees.SameFront(s, s') && s'.ci.queue == s.ci.queue
  {
    HeardLast(polls, k);
    hide Watching.News, Watching.Names, Legal, Run, FormatKey, Delivered, Watching.Heard, Watching.Stops;
    run := AskingRuns(c, s, t, polls[..k - 1]);
    assert Watching.Heard(polls) == Watching.Heard(polls[..k - 1]);
    Then(c, s, run, Crash);
    run := run + [Crash];
  }

  // ---- and the trees it leaves ----

  lemma WithoutOne(tree: Database.Tree, pairs: set<(Handle, Id)>, h: Handle, id: Id)
    requires Trees.HoldsPairs(tree, pairs, h)
    ensures Trees.HoldsPairs(tree - {Database.Text(Decimal(id))}, pairs - {(h, id)}, h)
  {
    hide Decimal;
    forall x: Id ensures Decimal(x) == Decimal(id) <==> x == id {
      Trees.IdTextsDiffer(x, id);
    }
  }

  /** What `WaitForCompletion` leaves in all the trees, whether it ends with all jobs finished, with
      an error after some reports, or has not ended yet, is what a run of its watcher leaves. */
  lemma WatcherLoopRefines(c: Config, s: State, t: nat, h: Handle, id: Id, polls: seq<Watching.Poll>, end: Watching.End,
                           before: map<string, Database.Tree>, after: map<string, Database.Tree>)
    returns (run: seq<Action>)
    requires t < |s.ci.watchers| && s.ci.watchers[t] == Ci.Watcher(h, id, [], Ci.Polling)
    requires Watching.EndsAt(polls, end)
    requires Trees.Represents(before, s) && Watching.WatchDone(before, after, h, id, polls, end)
    ensures Legal(c, s, run)
    ensures Trees.Represents(after, Run(c, s, run)) && Ended(Run(c, s, run), t, end)
  {
    hide Watching.News, Watching.Heard, Watching.WatchDone, Delivered, Legal, Run, Trees.At, Ended, Watching.EndsAt;
    run := WatchRuns(c, s, t, polls, end);
    var s' := Run(c, s, run);
    forall p ensures Trees.At(after, s', p) {
      WatchPlace(s, s', h, id, polls, end, before, after, p);
    }
  }

  lemma WatchPlace(s: State, s': State, h: Handle, id: Id, polls: seq<Watching.Poll>, end: Watching.End,
                   before: map<string, Database.Tree>, after: map<string, Database.Tree>, p: Trees.Place)
    requires Trees.At(before, s, p) && Watching.WatchDone(before, after, h, id, polls, end)
    requires s'.out.dispatch == Delivered(s.out.dispatch, h, id, Watching.News([], Watching.Heard(polls)))
    requires s'.ci.working == s.ci.working - (if end.AllDone? then {(h, id)} else {})
    requires Trees.SameFront(s, s') && s'.ci.queue == s.ci.queue
    ensures Trees.At(after, s', p)
  {
    hide Watching.News, Watching.Heard, Delivered, Watching.Written, Database.TreeIn, Decimal, Dispatching.Holds;
    Trees.NamesInUse(0, h);
    Trees.NamesApart(p, Trees.Dispatch);
    Trees.NamesApart(p, Trees.WorkingOf(h));
    hide Watching.WorkingTree, Trees.NameOf;
    if p == Trees.Dispatch {
      DeliveredHolds(Trees.In(before, p), s.out.dispatch, h, id, Watching.News([], Watching.Heard(polls)));
    } else if p == Trees.WorkingOf(h) {
      if end.AllDone? {
        WithoutOne(Trees.In(before, p), s.ci.working, h, id);
      } else {
        assert Trees.In(before, p) - {} == Trees.In(before, p);
      }
    } else {
      Trees.Frame(before, after, s, s', p);
    }
  }

  // ---- the dispatcher's round ----

  /** One key: visit it, ask, and post if nobody did. */
  lemma SendRuns(c: Config, s: State, key: string) returns (run: seq<Action>)
    requires s.out.pc.Iterating? && key in s.out.dispatch && key !in s.out.pc.drop && Outbox.Sendable(c, key)
    ensures Legal(c, s, run)
    ensures var p, p' := s.out, Run(c, s, run).out;
            && p'.pc == Outbox.Iterating(p.pc.must, p.pc.drop + [key])
            && p'.dispatch == p.dispatch
            && p'.checks == Dispatching.SentOne(c, p.checks, key, p.dispatch[key])
    ensures Run(c, s, run).ci == s.ci
    ensures Run(c, s, run).front == s.front
  {
    assert Legal(c, s, []) && Run(c, s, []) == s;
    hide Legal, Run, ParseKey, Outbox.OnServer, Outbox.CheckFor;
    Then(c, s, [], Dispatcher(Outbox.Visit(key)));
    run := [] + [Dispatcher(Outbox.Visit(key))];
    if !c.token {
      Then(c, s, run, Dispatcher(Outbox.Skip));
      run := run + [Dispatcher(Outbox.Skip)];
    } else {
      Then(c, s, run, Dispatcher(Outbox.Look));
      run := run + [Dispatcher(Outbox.Look)];
      if !Outbox.OnServer(c, s.out.checks, key) {
        Then(c, s, run, Dispatcher(Outbox.Post));
        run := run + [Dispatcher(Outbox.Post)];
        Then(c, s, run, Dispatcher(Outbox.Ack));
        run := run + [Dispatcher(Outbox.Ack)];
      }
    }
  }

  // ---- with the watchers going on in between ----

  predicate CiLegal(c: Config, s: Ci.Ci, acts: seq<Ci.Action>)
    decreases |acts|
  {
    acts == [] || (Ci.Enabled(c, s, acts[0]) && CiLegal(c, Ci.Apply(c, s, acts[0]), acts[1..]))
  }

  function CiRun(c: Config, s: Ci.Ci, acts: seq<Ci.Action>): Ci.Ci
    requires CiLegal(c, s, acts)
    decreases |acts|
  {
    if acts == [] then s else CiRun(c, Ci.Apply(c, s, acts[0]), acts[1..])
  }

  /** What these steps insert into "needs dispatch". */
  function Reports(c: Config, s: Ci.Ci, acts: seq<Ci.Action>): Dispatching.Arrivals
    requires CiLegal(c, s, acts)
    decreases |acts|
  {
    if acts == [] then map[]
    else
      (match Ci.Output(c, s, acts[0])
       case None => map[]
       case Some((h, id, r)) => map[FormatKey(h, id, r.name) := r]) + Reports(c, Ci.Apply(c, s, acts[0]), acts[1..])
  }

  /** The steps of the runner side that happen at each point of a round, and what they insert. */
  ghost predicate Background(c: Config, s: Ci.Ci, steps: seq<seq<Ci.Action>>, late: seq<Dispatching.Arrivals>)
    decreases |steps|
  {
    && |steps| == |late|
    && (steps != [] ==>
          CiLegal(c, s, steps[0]) && late[0] == Reports(c, s, steps[0])
          && Background(c, CiRun(c, s, steps[0]), steps[1..], late[1..]))
  }

  lemma SameLength(c: Config, s: Ci.Ci, steps: seq<seq<Ci.Action>>, late: seq<Dispatching.Arrivals>)
    requires Background(c, s, steps, late)
    ensures |steps| == |late|
  {
  }

  lemma {:induction false} BackgroundRuns(c: Config, s: State, acts: seq<Ci.Action>) returns (run: seq<Action>)
    requires CiLegal(c, s.ci, acts)
    ensures Legal(c, s, run)
    ensures var s' := Run(c, s, run);
            && s'.ci == CiRun(c, s.ci, acts)
            && s'.out.dispatch == s.out.dispatch + Reports(c, s.ci, acts)
            && s'.out.pc == s.out.pc && s'.out.checks == s.out.checks
    ensures Run(c, s, run).front == s.front
    decreases |acts|
  {
    hide FormatKey, Legal, Run, Ci.Apply, Ci.Enabled, Ci.Output;
    if acts == [] {
      run := [];
      Stay(c, s);
    } else {
      var a := Runner(acts[0]);
      ReportRuns(c, s, acts[0]);
      var s1 := Apply(c, s, a);
      hide Apply, Enabled;
      var rest := BackgroundRuns(c, s1, acts[1..]);
      First(c, s, a, rest);
      run := [a] + rest;
    }
  }

  lemma ReportRuns(c: Config, s: State, a: Ci.Action)
    requires Ci.Enabled(c, s.ci, a)
    ensures Enabled(c, s, Runner(a))
    ensures var s' := Apply(c, s, Runner(a));
            && s'.ci == Ci.Apply(c, s.ci, a) && s'.out.pc == s.out.pc && s'.out.checks == s.out.checks
            && s'.out.dispatch == s.out.dispatch + (match Ci.Output(c, s.ci, a)
                                                    case None => map[]
                                                    case Some((h, id, r)) => map[FormatKey(h, id, r.name) := r])
    ensures Apply(c, s, Runner(a)).front == s.front
  {
    hide Ci.Enabled, Ci.Apply, Ci.Output;
  }

  /** The iteration has dealt with the first `i` keys of the order. */
  ghost predicate InPass(c: Config, s: State, results: map<string, RunnerResult>, late: seq<Dispatching.Arrivals>,
                         steps: seq<seq<Ci.Action>>, order: seq<string>, i: nat) {
    && i <= |order| && |late| == |steps| == 2 * |order|
    && s.out.pc == Outbox.Iterating(results.Keys, order[..i])
    && s.out.dispatch == Dispatching.Grown(results, late, i)
    && Background(c, s.ci, steps[i..], late[i..])
    && Base(c, s)
  }

  /** Insertions before the `i`-th key of the order. */
  lemma ArrivalsRun(c: Config, s: State, results: map<string, RunnerResult>, late: seq<Dispatching.Arrivals>,
                    steps: seq<seq<Ci.Action>>, order: seq<string>, i: nat)
    returns (run: seq<Action>)
    requires WordHandles(c) && InPass(c, s, results, late, steps, order, i) && i < |order|
    ensures Legal(c, s, run)
    ensures var s' := Run(c, s, run);
            && s'.out.pc == s.out.pc && s'.out.checks == s.out.checks
            && s'.out.dispatch == Dispatching.Grown(results, late, i + 1)
            && Background(c, s'.ci, steps[i + 1..], late[i + 1..])
            && Base(c, s')
    ensures Run(c, s, run).front == s.front
  {
    hide Base, Legal, Run, CiLegal, CiRun, Reports, WordHandles;
    assert steps[i..][0] == steps[i] && steps[i..][1..] == steps[i + 1..];
    assert late[i..][0] == late[i] && late[i..][1..] == late[i + 1..];
    run := BackgroundRuns(c, s, steps[i]);
    RunKeepsBase(c, s, run);
  }

  /** One key of the pass, with the insertions before it. */
  lemma KeyRuns(c: Config, s: State, results: map<string, RunnerResult>, late: seq<Dispatching.Arrivals>,
                steps: seq<seq<Ci.Action>>, order: seq<string>, i: nat)
    returns (run: seq<Action>)
    requires WordHandles(c) && Dispatching.Yields(results, late, order)
    requires InPass(c, s, results, late, steps, order, i) && i < |order|
    ensures Legal(c, s, run) && InPass(c, Run(c, s, run), results, late, steps, order, i + 1)
    ensures Outbox.Sendable(c, order[i])
    ensures var seen := Dispatching.Visited(results, late, order, |order|);
            && order[i] in seen
            && Run(c, s, run).out.checks == Dispatching.SentOne(c, s.out.checks, order[i], seen[order[i]])
    ensures Run(c, s, run).front == s.front
  {
    hide Base, Legal, Run, Background, Outbox.Sendable, Dispatching.SentOne, Dispatching.Visited, Dispatching.Grown;
    hide WordHandles;
    run := ArrivalsRun(c, s, results, late, steps, order, i);
    var s1 := Run(c, s, run);
    Guarantees.KeysSendable(c, s1);
    Dispatching.VisitedAt(results, late, order, |order|, i);
    NotYetDropped(order, i);
    var send := SendRuns(c, s1, order[i]);
    RunAppend(c, s, run, send);
    RunKeepsBase(c, s1, send);
    assert order[..i + 1] == order[..i] + [order[i]];
    run := run + send;
  }

  lemma NotYetDropped<T>(order: seq<T>, i: nat)
    requires Distinct(order) && i < |order|
    ensures order[i] !in order[..i]
  {
  }

  /** The pass from the `i`-th key up to the `n`-th. */
  lemma {:induction false} PassRuns(c: Config, s: State, results: map<string, RunnerResult>,
                                    late: seq<Dispatching.Arrivals>,
                                    steps: seq<seq<Ci.Action>>, order: seq<string>, i: nat, n: nat)
    returns (run: seq<Action>)
    requires WordHandles(c) && Dispatching.Yields(results, late, order)
    requires InPass(c, s, results, late, steps, order, i) && i <= n <= |order|
    ensures Legal(c, s, run) && InPass(c, Run(c, s, run), results, late, steps, order, n)
    ensures var seen := Dispatching.Visited(results, late, order, |order|);
            && (forall key <- order[i..n] :: key in seen && Outbox.Sendable(c, key))
            && Run(c, s, run).out.checks == Dispatching.Sent(c, s.out.checks, seen, order[i..n])
    ensures Run(c, s, run).front == s.front
    decreases n - i
  {
    hide InPass, Legal, Run, Outbox.Sendable, Dispatching.SentOne, Dispatching.Visited, Dispatching.Yields, WordHandles;
    if i == n {
      run := [];
      Stay(c, s);
      assert order[i..n] == [];
    } else {
      run := KeyRuns(c, s, results, late, steps, order, i);
      var more := PassRuns(c, Run(c, s, run), results, late, steps, order, i + 1, n);
      RunAppend(c, s, run, more);
      run := run + more;
      assert order[i..n][0] == order[i] && order[i..n][1..] == order[i + 1..n];
      assert order[i..n] == [order[i]] + order[i + 1..n];
    }
  }

  /** The first `i` keys of the order were removed. */
  ghost predicate InRemoval(c: Config, s: State, results: map<string, RunnerResult>, late: seq<Dispatching.Arrivals>,
                            steps: seq<seq<Ci.Action>>, order: seq<string>, i: nat) {
    && i <= |order| && |late| == |steps| == 2 * |order|
    && s.out.pc == Outbox.Removing(order[i..])
    && s.out.dispatch == Dispatching.Shrunk(results, late, order, i)
    && Background(c, s.ci, steps[|order| + i..], late[|order| + i..])
  }

  /** Insertions before the `i`-th removal. */
  lemma LateArrivalsRun(c: Config, s: State, results: map<string, RunnerResult>, late: seq<Dispatching.Arrivals>,
                        steps: seq<seq<Ci.Action>>, order: seq<string>, i: nat)
    returns (run: seq<Action>)
    requires InRemoval(c, s, results, late, steps, order, i) && i < |order|
    ensures Legal(c, s, run)
    ensures var s' := Run(c, s, run);
            && s'.out.pc == s.out.pc && s'.out.checks == s.out.checks
            && s'.out.dispatch == s.out.dispatch + late[|order| + i]
            && Background(c, s'.ci, steps[|order| + i + 1..], late[|order| + i + 1..])
    ensures Run(c, s, run).front == s.front
  {
    hide Legal, Run, CiLegal, CiRun, Reports;
    var k := |order| + i;
    assert steps[k..][0] == steps[k] && steps[k..][1..] == steps[k + 1..];
    assert late[k..][0] == late[k] && late[k..][1..] == late[k + 1..];
    run := BackgroundRuns(c, s, steps[k]);
  }

  /** One removal, with the insertions before it. */
  lemma DropRuns(c: Config, s: State, results: map<string, RunnerResult>, late: seq<Dispatching.Arrivals>,
                 steps: seq<seq<Ci.Action>>, order: seq<string>, i: nat)
    returns (run: seq<Action>)
    requires InRemoval(c, s, results, late, steps, order, i) && i < |order|
    ensures Legal(c, s, run) && InRemoval(c, Run(c, s, run), results, late, steps, order, i + 1)
    ensures Run(c, s, run).out.checks == s.out.checks
    ensures Run(c, s, run).front == s.front
  {
    hide Legal, Run, Background;
    run := LateArrivalsRun(c, s, results, late, steps, order, i);
    assert order[i..][0] == order[i] && order[i..][1..] == order[i + 1..];
    Then(c, s, run, Dispatcher(Outbox.Remove));
    run := run + [Dispatcher(Outbox.Remove)];
  }

  lemma {:induction false} DropsRun(c: Config, s: State, results: map<string, RunnerResult>,
                                    late: seq<Dispatching.Arrivals>,
                                    steps: seq<seq<Ci.Action>>, order: seq<string>, i: nat, n: nat)
    returns (run: seq<Action>)
    requires InRemoval(c, s, results, late, steps, order, i) && i <= n <= |order|
    ensures Legal(c, s, run) && InRemoval(c, Run(c, s, run), results, late, steps, order, n)
    ensures Run(c, s, run).out.checks == s.out.checks
    ensures Run(c, s, run).front == s.front
    decreases n - i
  {
    hide Legal, Run, InRemoval;
    if i == n {
      run := [];
      Stay(c, s);
    } else {
      run := DropRuns(c, s, results, late, steps, order, i);
      var more := DropsRun(c, Run(c, s, run), results, late, steps, order, i + 1, n);
      RunAppend(c, s, run, more);
      run := run + more;
    }
  }

  /** Without a token nothing is sent. */
  lemma {:induction false} NothingSentWithoutToken(c: Config, checks: seq<Outbox.Check>,
                                                   tree: map<string, RunnerResult>, order: seq<string>)
    requires !c.token && forall key <- order :: key in tree && Outbox.Sendable(c, key)
    ensures Dispatching.Sent(c, checks, tree, order) == checks
    decreases |order|
  {
    hide Outbox.Sendable;
    if order != [] {
      assert order[0] in order && forall key <- order[1..] :: key in order;
      NothingSentWithoutToken(c, checks, tree, order[1..]);
    }
  }

  /** The beginning of a pass and its first `n` keys. */
  lemma IterationRuns(c: Config, s: State, late: seq<Dispatching.Arrivals>, steps: seq<seq<Ci.Action>>,
                      order: seq<string>, n: nat)
    returns (run: seq<Action>)
    requires WordHandles(c) && Base(c, s) && s.out.pc.Resting? && s.out.dispatch != map[] && n <= |order|
    requires Dispatching.Yields(s.out.dispatch, late, order) && Background(c, s.ci, steps, late)
    ensures Legal(c, s, run) && InPass(c, Run(c, s, run), s.out.dispatch, late, steps, order, n)
    ensures var seen := Dispatching.Visited(s.out.dispatch, late, order, |order|);
            && (forall key <- order[..n] :: key in seen && Outbox.Sendable(c, key))
            && Run(c, s, run).out.checks == Dispatching.Sent(c, s.out.checks, seen, order[..n])
    ensures Run(c, s, run).front == s.front
  {
    hide Base, Outbox.Sendable, Dispatching.Sent, Dispatching.Visited, Background, Legal, Run, WordHandles;
    assert Dispatching.Grown(s.out.dispatch, late, 0) == s.out.dispatch;
    SameLength(c, s.ci, steps, late);
    hide Dispatching.Grown;
    var begin := Dispatcher(Outbox.RoundBegin);
    var s1 := Apply(c, s, begin);
    StepKeepsBase(c, s, begin);
    assert order[..0] == [] && steps[0..] == steps && late[0..] == late && order[0..n] == order[..n];
    var sends := PassRuns(c, s1, s.out.dispatch, late, steps, order, 0, n);
    First(c, s, begin, sends);
    run := [begin] + sends;
  }

  /** A round in which every key was sent, up to its `n`-th removal. */
  lemma SentRoundRuns(c: Config, s: State, late: seq<Dispatching.Arrivals>, steps: seq<seq<Ci.Action>>,
                      order: seq<string>, n: nat)
    returns (run: seq<Action>)
    requires WordHandles(c) && Base(c, s) && s.out.pc.Resting? && s.out.dispatch != map[] && n <= |order|
    requires Dispatching.Yields(s.out.dispatch, late, order) && Background(c, s.ci, steps, late)
    ensures Legal(c, s, run) && InRemoval(c, Run(c, s, run), s.out.dispatch, late, steps, order, n)
    ensures var seen := Dispatching.Visited(s.out.dispatch, late, order, |order|);
            && (forall key <- order :: key in seen && Outbox.Sendable(c, key))
            && Run(c, s, run).out.checks == Dispatching.Sent(c, s.out.checks, seen, order)
    ensures Run(c, s, run).front == s.front
  {
    hide Base, Outbox.Sendable, Dispatching.Sent, Dispatching.Visited, Background, Legal, Run;
    hide WordHandles;
    assert order[..|order|] == order && order[0..] == order;
    assert Dispatching.Shrunk(s.out.dispatch, late, order, 0) == Dispatching.Grown(s.out.dispatch, late, |order|);
    hide Dispatching.Grown, Dispatching.Shrunk;
    run := IterationRuns(c, s, late, steps, order, |order|);
    Then(c, s, run, Dispatcher(Outbox.IterEnd));
    run := run + [Dispatcher(Outbox.IterEnd)];
    var drops := DropsRun(c, Run(c, s, run), s.out.dispatch, late, steps, order, 0, n);
    RunAppend(c, s, run, drops);
    run := run + drops;
  }

  /** A round that comes to its end. */
  lemma FullRoundRuns(c: Config, s: State, late: seq<Dispatching.Arrivals>, steps: seq<seq<Ci.Action>>,
                      order: seq<string>)
    returns (run: seq<Action>)
    requires WordHandles(c) && Base(c, s) && s.out.pc.Resting? && s.out.dispatch != map[]
    requires Dispatching.Yields(s.out.dispatch, late, order) && Background(c, s.ci, steps, late)
    ensures Legal(c, s, run) && Run(c, s, run).out.pc.Resting?
    ensures Run(c, s, run).out.dispatch == Dispatching.Shrunk(s.out.dispatch, late, order, |order|)
    ensures var seen := Dispatching.Visited(s.out.dispatch, late, order, |order|);
            && (forall key <- order :: key in seen && Outbox.Sendable(c, key))
            && Run(c, s, run).out.checks == Dispatching.Sent(c, s.out.checks, seen, order)
    ensures Run(c, s, run).front == s.front
  {
    hide Base, Outbox.Sendable, Dispatching.Sent, Dispatching.Visited, Dispatching.Shrunk, Background, Legal, Run;
    hide WordHandles, Dispatching.Yields;
    run := SentRoundRuns(c, s, late, steps, order, |order|);
    assert order[|order|..] == [];
    Then(c, s, run, Dispatcher(Outbox.RoundOver));
    run := run + [Dispatcher(Outbox.RoundOver)];
  }

  /** A round whose `n`-th removal is an error. */
  lemma StoppedRoundRuns(c: Config, s: State, late: seq<Dispatching.Arrivals>, steps: seq<seq<Ci.Action>>,
                         order: seq<string>, n: nat)
    returns (run: seq<Action>)
    requires WordHandles(c) && Base(c, s) && s.out.pc.Resting? && s.out.dispatch != map[] && n < |order|
    requires Dispatching.Yields(s.out.dispatch, late, order) && Background(c, s.ci, steps, late)
    ensures Legal(c, s, run) && Run(c, s, run).out.pc.Resting?
    ensures Run(c, s, run).out.dispatch == Dispatching.Shrunk(s.out.dispatch, late, order, n) + late[|order| + n]
    ensures var seen := Dispatching.Visited(s.out.dispatch, late, order, |order|);
            && (forall key <- order :: key in seen && Outbox.Sendable(c, key))
            && Run(c, s, run).out.checks == Dispatching.Sent(c, s.out.checks, seen, order)
    ensures Trees.SameFront(s, Run(c, s, run))
  {
    hide Base, Outbox.Sendable, Dispatching.Sent, Dispatching.Visited, Dispatching.Shrunk, Background, Legal, Run;
    hide WordHandles, Dispatching.Yields;
    run := SentRoundRuns(c, s, late, steps, order, n);
    var arrivals := LateArrivalsRun(c, Run(c, s, run), s.out.dispatch, late, steps, order, n);
    RunAppend(c, s, run, arrivals);
    run := run + arrivals;
    Then(c, s, run, Crash);
    run := run + [Crash];
  }

  /** One key whose post got through without the dispatcher learning it. */
  lemma LostPostRuns(c: Config, s: State, key: string) returns (run: seq<Action>)
    requires s.out.pc.Iterating? && key in s.out.dispatch && key !in s.out.pc.drop && Outbox.Sendable(c, key)
    requires c.token && !Outbox.OnServer(c, s.out.checks, key)
    ensures Legal(c, s, run)
    ensures Run(c, s, run).out.dispatch == s.out.dispatch
    ensures Run(c, s, run).out.checks == Dispatching.SentOne(c, s.out.checks, key, s.out.dispatch[key])
    ensures Run(c, s, run).front == s.front
  {
    Stay(c, s);
    hide Legal, Run, ParseKey, Outbox.OnServer, Outbox.CheckFor;
    Then(c, s, [], Dispatcher(Outbox.Visit(key)));
    run := [] + [Dispatcher(Outbox.Visit(key))];
    Then(c, s, run, Dispatcher(Outbox.Look));
    run := run + [Dispatcher(Outbox.Look)];
    Then(c, s, run, Dispatcher(Outbox.Post));
    run := run + [Dispatcher(Outbox.Post)];
  }

  /** A round up to the key at which it fails: the keys before it were sent. */
  lemma UpToFailureRuns(c: Config, s: State, late: seq<Dispatching.Arrivals>, steps: seq<seq<Ci.Action>>,
                        order: seq<string>, sent: nat)
    returns (run: seq<Action>)
    requires WordHandles(c) && Base(c, s) && s.out.pc.Resting? && s.out.dispatch != map[] && sent < |order|
    requires Dispatching.Yields(s.out.dispatch, late, order) && Background(c, s.ci, steps, late)
    ensures Legal(c, s, run)
    ensures var s', seen := Run(c, s, run), Dispatching.Visited(s.out.dispatch, late, order, |order|);
            && s'.out.pc == Outbox.Iterating(s.out.dispatch.Keys, order[..sent])
            && s'.out.dispatch == Dispatching.Grown(s.out.dispatch, late, sent + 1)
            && order[sent] in s'.out.dispatch && order[sent] in seen &&
               s'.out.dispatch[order[sent]] == seen[order[sent]]
            && (forall key <- order[..sent + 1] :: key in seen && Outbox.Sendable(c, key))
            && (forall key <- order[..sent] :: key in seen && Outbox.Sendable(c, key))
            && s'.out.checks == Dispatching.Sent(c, s.out.checks, seen, order[..sent])
    ensures Run(c, s, run).front == s.front
  {
    hide Base, Outbox.Sendable, Dispatching.Sent, Dispatching.Visited, Dispatching.Grown, Background, Legal, Run;
    hide WordHandles;
    run := IterationRuns(c, s, late, steps, order, sent);
    var arrivals := ArrivalsRun(c, Run(c, s, run), s.out.dispatch, late, steps, order, sent);
    RunAppend(c, s, run, arrivals);
    run := run + arrivals;
    Guarantees.KeysSendable(c, Run(c, s, run));
    Dispatching.VisitedAt(s.out.dispatch, late, order, |order|, sent);
    assert order[..sent + 1] == order[..sent] + [order[sent]];
  }

  /** A round that failed at its `sent`-th key, with or without the check of that key. */
  lemma FailedRoundRuns(c: Config, s: State, late: seq<Dispatching.Arrivals>, steps: seq<seq<Ci.Action>>,
                        order: seq<string>,
                        sent: nat, checks: seq<Outbox.Check>)
    returns (run: seq<Action>)
    requires WordHandles(c) && Base(c, s) && s.out.pc.Resting? && s.out.dispatch != map[] && sent < |order|
    requires Dispatching.Yields(s.out.dispatch, late, order) && Background(c, s.ci, steps, late)
    requires var seen := Dispatching.Visited(s.out.dispatch, late, order, |order|);
             Dispatching.SentUpTo(c, s.out.checks, seen, order, sent, checks)
             || Dispatching.SentUpTo(c, s.out.checks, seen, order, sent + 1, checks)
    ensures Legal(c, s, run) && Run(c, s, run).out.pc.Resting? && Run(c, s, run).out.checks == checks
    ensures Run(c, s, run).out.dispatch == Dispatching.Grown(s.out.dispatch, late, sent + 1)
    ensures Trees.SameFront(s, Run(c, s, run))
  {
    hide Base, Outbox.Sendable, Dispatching.Sent, Dispatching.SentUpTo, Dispatching.Visited, Dispatching.Grown;
    hide Background;
    hide Dispatching.Yields, Legal, Run, Outbox.OnServer, WordHandles;
    var seen, key := Dispatching.Visited(s.out.dispatch, late, order, |order|), order[sent];
    NotYetYielded(s.out.dispatch, late, order, sent);
    run := UpToFailureRuns(c, s, late, steps, order, sent);
    var s1 := Run(c, s, run);
    assert order[..sent + 1] == order[..sent] + [key];
    Dispatching.SentAppend(c, s.out.checks, seen, order[..sent], key);
    SentEither(c, s.out.checks, seen, order, sent, checks);
    if checks != s1.out.checks {
      var post := LostPostRuns(c, s1, key);
      RunAppend(c, s, run, post);
      run := run + post;
    }
    Then(c, s, run, Crash);
    run := run + [Crash];
  }

  lemma NotYetYielded(results: map<string, RunnerResult>, late: seq<Dispatching.Arrivals>, order: seq<string>, i: nat)
    requires Dispatching.Yields(results, late, order) && i < |order|
    ensures order[i] !in order[..i]
  {
    NotYetDropped(order, i);
  }

  lemma SentEither(c: Config, checks: seq<Outbox.Check>, seen: map<string, RunnerResult>, order: seq<string>, sent: nat,
                   after: seq<Outbox.Check>)
    requires sent < |order| && forall key <- order[..sent + 1] :: key in seen && Outbox.Sendable(c, key)
    requires Dispatching.SentUpTo(c, checks, seen, order, sent, after) ||
             Dispatching.SentUpTo(c, checks, seen, order, sent + 1, after)
    ensures forall key <- order[..sent] :: key in seen && Outbox.Sendable(c, key)
    ensures var before := Dispatching.Sent(c, checks, seen, order[..sent]);
            after == before || (c.token && order[sent] in seen && Outbox.Sendable(c, order[sent])
                                && !Outbox.OnServer(c, before, order[sent])
                                && after == Dispatching.SentOne(c, before, order[sent], seen[order[sent]]))
  {
    hide Outbox.Sendable, Dispatching.Sent, Outbox.OnServer;
    assert order[..sent + 1] == order[..sent] + [order[sent]];
    if !c.token {
      NothingSentWithoutToken(c, checks, seen, order[..sent]);
    }
    Dispatching.SentAppend(c, checks, seen, order[..sent], order[sent]);
  }

  /** What `Round` leaves behind, whether it comes to its end, fails at any key, with the checks of
      the keys before and perhaps one whose acknowledgement was lost, or fails at any removal, and
      with results coming in at any point, is what a run of the dispatcher and the watchers leaves, in
      every tree but those of the runners, which others go on with. An error ends the process. */
  lemma RoundRefines(c: Config, s: State, late: seq<Dispatching.Arrivals>, steps: seq<seq<Ci.Action>>,
                     order: seq<string>, end: Dispatching.RoundEnd, checks: seq<Outbox.Check>,
                     before: map<string, Database.Tree>, after: map<string, Database.Tree>)
    returns (run: seq<Action>)
    requires WordHandles(c) && Base(c, s) && s.out.pc.Resting? && s.out.dispatch != map[]
    requires Trees.Represents(before, s)
    requires Dispatching.Yields(s.out.dispatch, late, order) && Background(c, s.ci, steps, late)
    requires Dispatching.RoundDone(c, before, after, s.out.checks, checks, s.out.dispatch, late, order, end)
    ensures Legal(c, s, run) && Run(c, s, run).out.pc.Resting?
    ensures Run(c, s, run).out.checks == checks
    ensures forall p: Trees.Place :: !p.QueueOf? && !p.WorkingOf? ==> Trees.At(after, Run(c, s, run), p)
  {
    run := RoundRuns(c, s, late, steps, order, end, checks, before, after);
    hide Base, Dispatching.RoundDone, Dispatching.Yields, Background, Legal, Run, WordHandles, Dispatching.Holds;
    var s' := Run(c, s, run);
    forall p: Trees.Place | !p.QueueOf? && !p.WorkingOf? ensures Trees.At(after, s', p) {
      assert Trees.At(before, s, p);
      if p != Trees.Dispatch {
        RoundPlace(c, s, s', late, order, end, checks, before, after, p);
      }
    }
  }

  lemma RoundPlace(c: Config, s: State, s': State, late: seq<Dispatching.Arrivals>, order: seq<string>,
                   end: Dispatching.RoundEnd, checks: seq<Outbox.Check>,
                   before: map<string, Database.Tree>, after: map<string, Database.Tree>, p: Trees.Place)
    requires Dispatching.Yields(s.out.dispatch, late, order) && Trees.At(before, s, p) && Trees.SameFront(s, s')
    requires Dispatching.RoundDone(c, before, after, s.out.checks, checks, s.out.dispatch, late, order, end)
    requires p != Trees.Dispatch && !p.QueueOf? && !p.WorkingOf?
    ensures Trees.At(after, s', p)
  {
    Trees.NamesApart(p, Trees.Dispatch);
    Trees.NamesInUse(0, "");
    hide Dispatching.Yields, Dispatching.Holds, Dispatching.SentUpTo, Database.TreeIn, Trees.NameOf;
    Trees.Frame(before, after, s, s', p);
  }

  lemma RoundRuns(c: Config, s: State, late: seq<Dispatching.Arrivals>, steps: seq<seq<Ci.Action>>,
                  order: seq<string>, end: Dispatching.RoundEnd, checks: seq<Outbox.Check>,
                  before: map<string, Database.Tree>, after: map<string, Database.Tree>)
    returns (run: seq<Action>)
    requires WordHandles(c) && Base(c, s) && s.out.pc.Resting? && s.out.dispatch != map[]
    requires Dispatching.Yields(s.out.dispatch, late, order) && Background(c, s.ci, steps, late)
    requires Dispatching.RoundDone(c, before, after, s.out.checks, checks, s.out.dispatch, late, order, end)
    ensures Legal(c, s, run) && Run(c, s, run).out.pc.Resting? && Trees.SameFront(s, Run(c, s, run))
    ensures Run(c, s, run).out.checks == checks
    ensures Trees.At(after, Run(c, s, run), Trees.Dispatch)
  {
    hide Base, Outbox.Sendable, Dispatching.Holds, Dispatching.Sent, Dispatching.SentUpTo, Dispatching.Visited;
    hide Dispatching.Grown, Dispatching.Shrunk, Background, Legal, Run, Database.TreeIn, WordHandles;
    var seen := Dispatching.Visited(s.out.dispatch, late, order, |order|);
    match end
    case AtSend(n) =>
      run := FailedRoundRuns(c, s, late, steps, order, n, checks);
    case AtRemoval(n) =>
      run := StoppedRoundRuns(c, s, late, steps, order, n);
      SentAsOne(c, s.out.checks, seen, order, checks);
    case Complete =>
      run := FullRoundRuns(c, s, late, steps, order);
      SentAsOne(c, s.out.checks, seen, order, checks);
  }

  /** With or without a token the server has what sending these keys amounts to. */
  lemma SentAsOne(c: Config, checks: seq<Outbox.Check>, seen: map<string, RunnerResult>, order: seq<string>,
                  after: seq<Outbox.Check>)
    requires forall key <- order :: key in seen && Outbox.Sendable(c, key)
    requires Dispatching.SentUpTo(c, checks, seen, order, |order|, after)
    ensures after == Dispatching.Sent(c, checks, seen, order)
  {
    hide Outbox.Sendable, Dispatching.Sent;
    assert order[..|order|] == order;
    if !c.token {
      NothingSentWithoutToken(c, checks, seen, order);
    }
  }

  // ---- the git task ----

  /** The pairs the remotes `from` up to `to` add to the runner queues. */
  function Pairs(remotes: seq<Handle>, id: Id, from: nat, to: nat): set<(Handle, Id)>
    requires from <= to <= |remotes|
  {
    set i | from <= i < to :: (remotes[i], id)
  }

  /** Everything but the git threads, their trees and the runner queues. */
  ghost predicate SameElsewhere(s: State, s': State) {
    && s'.front.seen == s.front.seen && s'.front.needsTesting == s.front.needsTesting
    && s'.ci.working == s.ci.working && s'.ci.watchers == s.ci.watchers && s'.out == s.out
  }

  /** The steps at the remotes for these answers: a push that goes well, or finds the branch there,
      and the insertion into the queue; the first other answer is a failure, before the insertion. */
  function Pushes(w: nat, answers: seq<GitWork.PushAnswer>): seq<Action> {
    if answers == [] then [Front(Intake.GitOk(w))]
    else match answers[0]
      case Pushed => [Front(Intake.GitPush(w)), Front(Intake.GitQueue(w))] + Pushes(w, answers[1..])
      case NotFastForward => [Front(Intake.GitPush(w)), Front(Intake.GitQueue(w))] + Pushes(w, answers[1..])
      case QueueError => [Front(Intake.GitPush(w)), Front(Intake.GitFail(w))]
      case PushError => [Front(Intake.GitFail(w))]
      case NoSuchRemote => [Front(Intake.GitFail(w))]
  }

  /** The steps of a task that finds its tree empty. */
  function TaskSteps(w: nat, ready: bool, answers: seq<GitWork.PushAnswer>, calls: GitWork.Calls,
                     well: bool): seq<Action> {
    if !calls.first then [Front(Intake.GitClear(w)), Front(Intake.GitBoned(w))]
    else
      [Front(Intake.GitClear(w)), Front(Intake.GitTake(w))]
      + (if ready then [Front(Intake.GitReady(w))] + Pushes(w, answers) else [Front(Intake.GitFail(w))])
      + [Front(if !calls.last then Intake.GitBoned(w) else if well then Intake.GitRemove(w) else Intake.GitFailMove(w))]
  }

  lemma PushAndQueueRuns(c: Config, s: State, w: nat, id: Id, j: nat) returns (s': State)
    requires w < |s.front.git| && s.front.git[w] == Intake.Push(id, j) && j < |c.remotes|
    ensures var run := [Front(Intake.GitPush(w)), Front(Intake.GitQueue(w))];
            Legal(c, s, run) && s' == Run(c, s, run)
    ensures s'.front.git == s.front.git[w := Intake.Push(id, j + 1)]
    ensures s'.ci.queue == s.ci.queue + {(c.remotes[j], id)}
    ensures s'.front.awaiting == s.front.awaiting && s'.front.onWorker == s.front.onWorker
    ensures s'.front.failures == s.front.failures && SameElsewhere(s, s')
  {
    Stay(c, s);
    hide Legal, Run;
    Then(c, s, [], Front(Intake.GitPush(w)));
    assert [] + [Front(Intake.GitPush(w))] == [Front(Intake.GitPush(w))];
    Then(c, s, [Front(Intake.GitPush(w))], Front(Intake.GitQueue(w)));
    assert [Front(Intake.GitPush(w))] + [Front(Intake.GitQueue(w))] ==
           [Front(Intake.GitPush(w)), Front(Intake.GitQueue(w))];
    s' := Run(c, s, [Front(Intake.GitPush(w)), Front(Intake.GitQueue(w))]);
  }

  lemma FailingRuns(c: Config, s: State, w: nat, id: Id, j: nat, pushed: bool) returns (s': State)
    requires w < |s.front.git| && s.front.git[w] == Intake.Push(id, j) && j < |c.remotes|
    ensures var run := if pushed then [Front(Intake.GitPush(w)), Front(Intake.GitFail(w))]
            else [Front(Intake.GitFail(w))];
            Legal(c, s, run) && s' == Run(c, s, run)
    ensures s'.front.git == s.front.git[w := Intake.Failing(id)] && s'.ci.queue == s.ci.queue
    ensures s'.front.awaiting == s.front.awaiting && s'.front.onWorker == s.front.onWorker
    ensures s'.front.failures == s.front.failures && SameElsewhere(s, s')
  {
    Stay(c, s);
    hide Legal, Run;
    var push, fail := Front(Intake.GitPush(w)), Front(Intake.GitFail(w));
    if pushed {
      Then(c, s, [], push);
      assert [] + [push] == [push] && [push] + [fail] == [push, fail];
      Then(c, s, [push], fail);
      s' := Run(c, s, [push, fail]);
    } else {
      Then(c, s, [], fail);
      assert [] + [fail] == [fail];
      s' := Run(c, s, [fail]);
    }
  }

  /** The loop over the remotes, for these answers. */
  lemma {:induction false} PushesRun(c: Config, s: State, w: nat, id: Id, j: nat, answers: seq<GitWork.PushAnswer>)
    returns (s': State)
    requires w < |s.front.git| && s.front.git[w] == Intake.Push(id, j) && |answers| + j == |c.remotes|
    ensures Legal(c, s, Pushes(w, answers)) && s' == Run(c, s, Pushes(w, answers))
    ensures s'.front.git == s.front.git[w := if GitWork.Served(answers) < |answers| then Intake.Failing(id)
                                             else Intake.Succeeded(id)]
    ensures s'.ci.queue == s.ci.queue + Pairs(c.remotes, id, j, j + GitWork.Served(answers))
    ensures s'.front.awaiting == s.front.awaiting && s'.front.onWorker == s.front.onWorker
    ensures s'.front.failures == s.front.failures && SameElsewhere(s, s')
    decreases |answers|
  {
    hide Legal, Run, Enabled, Apply;
    if answers == [] {
      s' := OkRuns(c, s, w, id);
      assert Pairs(c.remotes, id, j, j) == {};
    } else if answers[0].Pushed? || answers[0].NotFastForward? {
      var s1 := PushAndQueueRuns(c, s, w, id, j);
      s' := PushesRun(c, s1, w, id, j + 1, answers[1..]);
      RunAppend(c, s, [Front(Intake.GitPush(w)), Front(Intake.GitQueue(w))], Pushes(w, answers[1..]));
      assert Pairs(c.remotes, id, j, j + GitWork.Served(answers))
             == {(c.remotes[j], id)} + Pairs(c.remotes, id, j + 1, j + GitWork.Served(answers));
    } else {
      s' := FailingRuns(c, s, w, id, j, answers[0].QueueError?);
      assert Pairs(c.remotes, id, j, j) == {};
    }
  }

  lemma OkRuns(c: Config, s: State, w: nat, id: Id) returns (s': State)
    requires w < |s.front.git| && s.front.git[w] == Intake.Push(id, |c.remotes|)
    ensures Legal(c, s, [Front(Intake.GitOk(w))]) && s' == Run(c, s, [Front(Intake.GitOk(w))])
    ensures s'.front.git == s.front.git[w := Intake.Succeeded(id)] && s'.ci.queue == s.ci.queue
    ensures s'.front.awaiting == s.front.awaiting && s'.front.onWorker == s.front.onWorker
    ensures s'.front.failures == s.front.failures && SameElsewhere(s, s')
  {
    Stay(c, s);
    hide Legal, Run;
    Then(c, s, [], Front(Intake.GitOk(w)));
    assert [] + [Front(Intake.GitOk(w))] == [Front(Intake.GitOk(w))];
    s' := Run(c, s, [Front(Intake.GitOk(w))]);
  }

  /** `do_work`: the preparation, and the loop if it went well. */
  lemma WorkRuns(c: Config, s: State, w: nat, id: Id, ready: bool, answers: seq<GitWork.PushAnswer>) returns (s': State)
    requires w < |s.front.git| && s.front.git[w] == Intake.Prep(id) && (w, id) in s.front.onWorker
    requires ready ==> |answers| == |c.remotes|
    ensures var run := if ready then [Front(Intake.GitReady(w))] + Pushes(w, answers) else [Front(Intake.GitFail(w))];
            Legal(c, s, run) && s' == Run(c, s, run)
    ensures var n := if ready then GitWork.Served(answers) else 0;
            && s'.front.git ==
               s.front.git[w := if ready && n == |answers| then Intake.Succeeded(id) else Intake.Failing(id)]
            && s'.ci.queue == s.ci.queue + Pairs(c.remotes, id, 0, n)
    ensures s'.front.awaiting == s.front.awaiting && s'.front.onWorker == s.front.onWorker
    ensures s'.front.failures == s.front.failures && SameElsewhere(s, s')
  {
    Stay(c, s);
    hide Legal, Run, Pushes, GitWork.Served;
    if ready {
      var s1 := Apply(c, s, Front(Intake.GitReady(w)));
      s' := PushesRun(c, s1, w, id, 0, answers);
      First(c, s, Front(Intake.GitReady(w)), Pushes(w, answers));
    } else {
      Then(c, s, [], Front(Intake.GitFail(w)));
      assert [] + [Front(Intake.GitFail(w))] == [Front(Intake.GitFail(w))];
      s' := Run(c, s, [Front(Intake.GitFail(w))]);
      assert Pairs(c.remotes, id, 0, 0) == {};
    }
  }

  lemma TakeRuns(c: Config, s: State, w: nat, id: Id) returns (s': State)
    requires w < |s.front.git| && s.front.git[w] == Intake.Queueing(id) && id in s.front.awaiting
    requires forall x :: (w, x) !in s.front.onWorker
    ensures var run := [Front(Intake.GitClear(w)), Front(Intake.GitTake(w))];
            Legal(c, s, run) && s' == Run(c, s, run)
    ensures s'.front.git == s.front.git[w := Intake.Prep(id)] && s'.ci.queue == s.ci.queue
    ensures s'.front.awaiting == s.front.awaiting - {id} && s'.front.failures == s.front.failures
    ensures s'.front.onWorker == s.front.onWorker[(w, id) := s.front.awaiting[id]] && SameElsewhere(s, s')
  {
    Stay(c, s);
    hide Legal, Run;
    Then(c, s, [], Front(Intake.GitClear(w)));
    assert [] + [Front(Intake.GitClear(w))] == [Front(Intake.GitClear(w))];
    Then(c, s, [Front(Intake.GitClear(w))], Front(Intake.GitTake(w)));
    assert [Front(Intake.GitClear(w))] + [Front(Intake.GitTake(w))] ==
           [Front(Intake.GitClear(w)), Front(Intake.GitTake(w))];
    s' := Run(c, s, [Front(Intake.GitClear(w)), Front(Intake.GitTake(w))]);
  }

  /** The last call of a task. */
  lemma LastRuns(c: Config, s: State, w: nat, id: Id, well: bool, last: bool) returns (s': State)
    requires w < |s.front.git| && (w, id) in s.front.onWorker
    requires s.front.git[w] == if well then Intake.Succeeded(id) else Intake.Failing(id)
    ensures var run := [Front(if !last then Intake.GitBoned(w) else if well then Intake.GitRemove(w)
                              else Intake.GitFailMove(w))];
            Legal(c, s, run) && s' == Run(c, s, run)
    ensures s'.ci.queue == s.ci.queue && s'.front.awaiting == s.front.awaiting && SameElsewhere(s, s')
    ensures s'.front.onWorker == if last then s.front.onWorker - {(w, id)} else s.front.onWorker
    ensures s'.front.failures == if last && !well then s.front.failures[id := s.front.onWorker[(w, id)]]
                                 else s.front.failures
    ensures s'.front.git == s.front.git[w := Intake.Idle]
  {
    Stay(c, s);
    hide Legal, Run;
    var a := Front(if !last then Intake.GitBoned(w) else if well then Intake.GitRemove(w) else Intake.GitFailMove(w));
    Then(c, s, [], a);
    assert [] + [a] == [a];
    s' := Run(c, s, [a]);
  }

  /** A whole task at an empty worker tree. */
  lemma TaskRuns(c: Config, s: State, w: nat, id: Id, ready: bool, answers: seq<GitWork.PushAnswer>,
                 calls: GitWork.Calls)
    returns (s': State)
    requires w < |s.front.git| && s.front.git[w] == Intake.Queueing(id) && id in s.front.awaiting && calls.first
    requires forall x :: (w, x) !in s.front.onWorker
    requires ready ==> |answers| == |c.remotes|
    ensures var n, well := if ready then GitWork.Served(answers) else 0, ready && GitWork.Served(answers) == |answers|;
            && Legal(c, s, TaskSteps(w, ready, answers, calls, well))
            && s' == Run(c, s, TaskSteps(w, ready, answers, calls, well))
            && s'.front.awaiting == s.front.awaiting - {id}
            && s'.front.onWorker == (if calls.last then s.front.onWorker
                                     else s.front.onWorker[(w, id) := s.front.awaiting[id]])
            && s'.front.failures == (if calls.last && !well then s.front.failures[id := s.front.awaiting[id]]
                                     else s.front.failures)
            && s'.ci.queue == s.ci.queue + Pairs(c.remotes, id, 0, n)
    ensures s'.front.git == s.front.git[w := Intake.Idle] && SameElsewhere(s, s')
  {
    hide Legal, Run, Pushes, GitWork.Served, Enabled, Apply;
    var well := ready && GitWork.Served(answers) == |answers|;
    var take := [Front(Intake.GitClear(w)), Front(Intake.GitTake(w))];
    var work := if ready then [Front(Intake.GitReady(w))] + Pushes(w, answers) else [Front(Intake.GitFail(w))];
    var last := [Front(if !calls.last then Intake.GitBoned(w) else if well then Intake.GitRemove(w)
                       else Intake.GitFailMove(w))];
    var s1 := TakeRuns(c, s, w, id);
    var s2 := WorkRuns(c, s1, w, id, ready, answers);
    RunAppend(c, s, take, work);
    s' := LastRuns(c, s2, w, id, well, calls.last);
    RunAppend(c, s, take + work, last);
    assert TaskSteps(w, ready, answers, calls, well) == take + work + last;
    assert s.front.onWorker[(w, id) := s.front.awaiting[id]] - {(w, id)} == s.front.onWorker;
  }

  lemma NotStartedRuns(c: Config, s: State, w: nat) returns (s': State)
    requires w < |s.front.git| && s.front.git[w].Queueing? && forall x :: (w, x) !in s.front.onWorker
    ensures var run := [Front(Intake.GitClear(w)), Front(Intake.GitBoned(w))];
            Legal(c, s, run) && s' == Run(c, s, run)
    ensures s' == s.(front := s.front.(git := s.front.git[w := Intake.Idle]))
  {
    Stay(c, s);
    hide Legal, Run;
    Then(c, s, [], Front(Intake.GitClear(w)));
    assert [] + [Front(Intake.GitClear(w))] == [Front(Intake.GitClear(w))];
    Then(c, s, [Front(Intake.GitClear(w))], Front(Intake.GitBoned(w)));
    assert [Front(Intake.GitClear(w))] + [Front(Intake.GitBoned(w))] ==
           [Front(Intake.GitClear(w)), Front(Intake.GitBoned(w))];
    s' := Run(c, s, [Front(Intake.GitClear(w)), Front(Intake.GitBoned(w))]);
  }

  // ---- and the trees it leaves ----

  /** The queue of one handle after a task. */
  lemma QueueAfterTask(tree: Database.Tree, queue: set<(Handle, Id)>, h: Handle, id: Id, remotes: seq<Handle>, n: nat)
    requires Trees.HoldsPairs(tree, queue, h) && n <= |remotes|
    ensures Trees.HoldsPairs(if h in remotes[..n] then tree[Database.Text(Decimal(id)) := Database.New] else tree,
                             queue + Pairs(remotes, id, 0, n), h)
  {
    hide Decimal;
    if h in remotes[..n] {
      var i :| 0 <= i < n && remotes[i] == h;
      assert (h, id) in Pairs(remotes, id, 0, n);
    }
    forall x: Id ensures Decimal(x) == Decimal(id) <==> x == id {
      Trees.IdTextsDiffer(x, id);
    }
  }

  /** What `TryDoWork` leaves in all the trees when it found its own empty is what the run of these
      very steps leaves: for a first move that is an error, for each answer to each push, and for a
      last call that goes well or not. */
  lemma TaskRefines(c: Config, s: State, w: nat, id: Id, prepared: bool, items: seq<Database.Item>,
                    answers: seq<GitWork.PushAnswer>, calls: GitWork.Calls, end: GitWork.TaskEnd, served: seq<Handle>,
                    before: map<string, Database.Tree>, after: map<string, Database.Tree>)
    returns (run: seq<Action>)
    requires w < |s.front.git| && s.front.git[w] == Intake.Queueing(id)
    requires Trees.Represents(before, s) && Trees.In(before, Trees.WorkerOf(w)) == map[]
    requires |answers| == |items| && (GitWork.Readable(items) ==> GitWork.Handles(items) == c.remotes)
    requires GitWork.RunsTo(before, after, w, id, prepared, items, answers, calls, end, served) && !end.Missing?
    ensures run == TaskSteps(w, prepared && GitWork.Readable(items), answers, calls, !end.Failed())
    ensures Legal(c, s, run) && Trees.Represents(after, Run(c, s, run))
    ensures Run(c, s, run).front.git == s.front.git[w := Intake.Idle]
  {
    var ready := prepared && GitWork.Readable(items);
    NothingAtWorker(before, s, w);
    AwaitsThere(before, s, id);
    TaskFacts(before, after, w, id, prepared, items, answers, calls, end, served);
    run := TaskSteps(w, ready, answers, calls, !end.Failed());
    hide Legal, Run, Trees.At, GitWork.Served, Pushes, TaskSteps, GitWork.TaskDone, GitWork.RunsTo;
    hide Database.TreeIn, Trees.NameOf;
    if end.NotStarted? {
      NotStartedSteps(w, ready, answers, calls, !end.Failed());
      var s' := NotStartedRuns(c, s, w);
      NothingMoved(before, s, s');
    } else {
      var s' := TaskRuns(c, s, w, id, ready, answers, calls);
      forall p ensures Trees.At(after, s', p) {
        assert Trees.At(before, s, p) && Trees.At(before, s, Trees.Awaiting);
        TaskPlace(c, s, s', w, id, if ready then GitWork.Served(answers) else 0, end, served, before, after, p);
      }
    }
  }

  /** What the end of a task says about its calls and answers. */
  lemma TaskFacts(before: map<string, Database.Tree>, after: map<string, Database.Tree>, w: nat, id: Id, prepared: bool,
                  items: seq<Database.Item>, answers: seq<GitWork.PushAnswer>, calls: GitWork.Calls,
                  end: GitWork.TaskEnd, served: seq<Handle>)
    requires |answers| == |items|
    requires GitWork.RunsTo(before, after, w, id, prepared, items, answers, calls, end, served) && !end.Missing?
    ensures end.NotStarted? <==> !calls.first
    ensures end.NotStarted? ==> after == before
    ensures end.Worked() ==>
              && Database.Num(id) in Database.TreeIn(before, "awaiting git worker")
              && GitWork.TaskDone(before, after, w, id, served, end) && (end.GaveUp? <==> !calls.last)
              && (end.Failed() <==> !(prepared && GitWork.Readable(items) && GitWork.Served(answers) == |answers|))
              && served == if prepared && GitWork.Readable(items)
                           then GitWork.Handles(items)[..GitWork.Served(answers)] else []
  {
    hide GitWork.TaskDone, Database.TreeIn;
  }

  lemma NothingMoved(trees: map<string, Database.Tree>, s: State, s': State)
    requires Trees.Represents(trees, s) && Trees.SameFront(s, s') && s'.ci == s.ci && s'.out == s.out
    ensures Trees.Represents(trees, s')
  {
    hide Trees.At;
    forall p ensures Trees.At(trees, s', p) {
      assert Trees.At(trees, s, p);
      Trees.Frame(trees, trees, s, s', p);
    }
  }

  lemma NotStartedSteps(w: nat, ready: bool, answers: seq<GitWork.PushAnswer>, calls: GitWork.Calls, well: bool)
    requires !calls.first
    ensures TaskSteps(w, ready, answers, calls, well) == [Front(Intake.GitClear(w)), Front(Intake.GitBoned(w))]
  {
  }

  lemma NothingAtWorker(trees: map<string, Database.Tree>, s: State, w: nat)
    requires Trees.Represents(trees, s) && Trees.In(trees, Trees.WorkerOf(w)) == map[]
    ensures forall x :: (w, x) !in s.front.onWorker
  {
    assert Trees.At(trees, s, Trees.WorkerOf(w));
  }

  lemma AwaitsThere(trees: map<string, Database.Tree>, s: State, id: Id)
    requires Trees.Represents(trees, s)
    ensures Database.Num(id) in Database.TreeIn(trees, "awaiting git worker") <==> id in s.front.awaiting
  {
    assert Trees.At(trees, s, Trees.Awaiting);
  }

  /** Each place after a task. */
  lemma TaskPlace(c: Config, s: State, s': State, w: nat, id: Id, n: nat, end: GitWork.TaskEnd, served: seq<Handle>,
                  before: map<string, Database.Tree>, after: map<string, Database.Tree>, p: Trees.Place)
    requires n <= |c.remotes| && served == c.remotes[..n] && id in s.front.awaiting
    requires Trees.At(before, s, p) && Trees.At(before, s, Trees.Awaiting)
    requires Trees.In(before, Trees.WorkerOf(w)) == map[]
    requires Database.Num(id) in Database.TreeIn(before, "awaiting git worker")
    requires GitWork.TaskDone(before, after, w, id, served, end)
    requires s'.front.awaiting == s.front.awaiting - {id}
    requires s'.front.onWorker == if end.GaveUp? then s.front.onWorker[(w, id) := s.front.awaiting[id]]
             else s.front.onWorker
    requires s'.front.failures == if end.GitFailed? then s.front.failures[id := s.front.awaiting[id]]
             else s.front.failures
    requires s'.ci.queue == s.ci.queue + Pairs(c.remotes, id, 0, n) && SameElsewhere(s, s')
    ensures Trees.At(after, s', p)
  {
    hide GitWork.TaskDone, Database.TreeIn, Pairs, Trees.At;
    match p
    case Awaiting => OwnPlaces(s, s', w, id, end, served, before, after, p);
    case Failures => OwnPlaces(s, s', w, id, end, served, before, after, p);
    case WorkerOf(v) =>
      if v == w {
        OwnPlaces(s, s', w, id, end, served, before, after, p);
      } else {
        OtherPlace(s, s', w, id, end, served, before, after, p);
        Trees.Frame(before, after, s, s', p);
      }
    case QueueOf(h) =>
      QueuePlace(w, id, end, served, before, after, h);
      QueueHolds(c, s, s', id, n, before, after, h);
    case _ =>
      OtherPlace(s, s', w, id, end, served, before, after, p);
      Trees.Frame(before, after, s, s', p);
  }

  /** The trees a task writes to, apart from the queues. */
  lemma OwnPlaces(s: State, s': State, w: nat, id: Id, end: GitWork.TaskEnd, served: seq<Handle>,
                  before: map<string, Database.Tree>, after: map<string, Database.Tree>, p: Trees.Place)
    requires p in {Trees.Awaiting, Trees.Failures, Trees.WorkerOf(w)} && id in s.front.awaiting
    requires Trees.At(before, s, p) && Trees.At(before, s, Trees.Awaiting)
    requires Trees.In(before, Trees.WorkerOf(w)) == map[]
    requires Database.Num(id) in Database.TreeIn(before, "awaiting git worker")
    requires GitWork.TaskDone(before, after, w, id, served, end)
    requires s'.front.awaiting == s.front.awaiting - {id}
    requires s'.front.onWorker == if end.GaveUp? then s.front.onWorker[(w, id) := s.front.awaiting[id]]
             else s.front.onWorker
    requires s'.front.failures == if end.GitFailed? then s.front.failures[id := s.front.awaiting[id]]
             else s.front.failures
    ensures Trees.At(after, s', p)
  {
    Trees.NamesInUse(w, "");
    hide Database.TreeIn, GitWork.WorkerTree, GitWork.QueueTree, Decimal, Trees.NameOf;
  }

  /** The places a task leaves alone. */
  lemma OtherPlace(s: State, s': State, w: nat, id: Id, end: GitWork.TaskEnd, served: seq<Handle>,
                   before: map<string, Database.Tree>, after: map<string, Database.Tree>, p: Trees.Place)
    requires p !in {Trees.Awaiting, Trees.Failures, Trees.WorkerOf(w)} && !p.QueueOf?
    requires Database.Num(id) in Database.TreeIn(before, "awaiting git worker")
    requires GitWork.TaskDone(before, after, w, id, served, end)
    requires SameElsewhere(s, s')
    requires forall v, x :: v != w ==> ((v, x) in s'.front.onWorker <==> (v, x) in s.front.onWorker)
    requires forall v, x :: v != w && (v, x) in s.front.onWorker ==>
               s'.front.onWorker[(v, x)] == s.front.onWorker[(v, x)]
    ensures Trees.In(after, p) == Trees.In(before, p) && Trees.SameAt(s, s', p)
  {
    Trees.NamesInUse(w, "");
    Trees.NamesApart(p, Trees.Awaiting);
    Trees.NamesApart(p, Trees.Failures);
    Trees.NamesApart(p, Trees.WorkerOf(w));
    forall h: Handle ensures Trees.NameOf(p) != GitWork.QueueTree(h) {
      Trees.NamesInUse(w, h);
      Trees.NamesApart(p, Trees.QueueOf(h));
    }
    hide Database.TreeIn, GitWork.WorkerTree, GitWork.QueueTree, Decimal, Trees.NameOf;
  }

  /** A task puts its series into the queues of these handles and no other. */
  lemma QueuePlace(w: nat, id: Id, end: GitWork.TaskEnd, served: seq<Handle>,
                   before: map<string, Database.Tree>, after: map<string, Database.Tree>, h: Handle)
    requires Database.Num(id) in Database.TreeIn(before, "awaiting git worker")
    requires GitWork.TaskDone(before, after, w, id, served, end)
    ensures Trees.In(after, Trees.QueueOf(h)) ==
              if h in served then Trees.In(before, Trees.QueueOf(h))[Database.Text(Decimal(id)) := Database.New]
              else Trees.In(before, Trees.QueueOf(h))
  {
    Trees.NamesInUse(w, h);
    Trees.NamesApart(Trees.QueueOf(h), Trees.Awaiting);
    Trees.NamesApart(Trees.QueueOf(h), Trees.Failures);
    Trees.NamesApart(Trees.QueueOf(h), Trees.WorkerOf(w));
    forall g: Handle ensures GitWork.QueueTree(h) == GitWork.QueueTree(g) <==> h == g {
      Trees.NamesInUse(w, g);
      Trees.NamesApart(Trees.QueueOf(h), Trees.QueueOf(g));
    }
    hide Database.TreeIn, GitWork.WorkerTree, GitWork.QueueTree, Decimal, Trees.NameOf;
  }

  lemma QueueHolds(c: Config, s: State, s': State, id: Id, n: nat,
                   before: map<string, Database.Tree>, after: map<string, Database.Tree>, h: Handle)
    requires n <= |c.remotes| && Trees.At(before, s, Trees.QueueOf(h))
    requires Trees.In(after, Trees.QueueOf(h)) ==
               if h in c.remotes[..n]
                   then Trees.In(before, Trees.QueueOf(h))[Database.Text(Decimal(id)) := Database.New]
               else Trees.In(before, Trees.QueueOf(h))
    requires s'.ci.queue == s.ci.queue + Pairs(c.remotes, id, 0, n)
    ensures Trees.At(after, s', Trees.QueueOf(h))
  {
    hide Database.TreeIn, Trees.NameOf, Decimal, Trees.HoldsPairs;
    QueueAfterTask(Trees.In(before, Trees.QueueOf(h)), s.ci.queue, h, id, c.remotes, n);
  }
}
