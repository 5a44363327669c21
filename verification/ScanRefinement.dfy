/** The scan over a list is a run of the transition system: what `CheckSeriesList` leaves in the
    trees is what the steps of its tasks leave. */
module ScanRefinement {
  import opened Basics
  import opened Codec
  import opened Database
  import opened Protocol
  import opened Trees
  import opened Scan
  import Intake
  import Refinement
  import PassRefinement

  /** What the scan is told about this entry. */
  function AnswerOf(e: Entry): Intake.Answer {
    Intake.Answer(e.lookup, e.patch)
  }

  /** The filters of the loop, which look into the tree, are those of the transition system, which
      look into the set of series seen. */
  lemma WantedAgrees(tree: Tree, seen: set<Id>, e: Entry)
    requires HoldsTexts(tree, seen)
    ensures WantedEntry(tree, e) <==> Intake.Wanted(seen, e.series, AnswerOf(e))
  {
    hide Decimal, Intake.ActionRequired;
  }

  /** Patchwork's list, each series under its id. */
  function Listing(list: seq<Entry>): map<Id, Intake.Series> {
    if list == [] then map[] else Listing(list[1..])[list[0].series.id := list[0].series]
  }

  ghost predicate IdsDiffer(list: seq<Entry>) {
    forall i, j :: 0 <= i < j < |list| ==> list[i].series.id != list[j].series.id
  }

  lemma {:induction false} ListingHolds(list: seq<Entry>)
    requires IdsDiffer(list)
    ensures forall e <- list :: e.series.id in Listing(list) && Listing(list)[e.series.id] == e.series
    ensures forall id <- Listing(list) :: exists e <- list :: e.series.id == id && Listing(list)[id] == e.series
    decreases |list|
  {
    if list != [] {
      var e, rest := list[0], list[1..];
      ListingHolds(rest);
      assert forall d :: d in list <==> d == e || d in rest;
      forall d <- rest ensures d.series.id != e.series.id {
        var i :| 0 <= i < |rest| && rest[i] == d;
        assert list[i + 1] == d;
      }
    }
  }

  /** Patchwork's answers fit the configuration: the patches of a series are always the same, and
      the look-up of a series seen fails only if look-ups can. */
  ghost predicate Fits(c: Config, seen: set<Id>, list: seq<Entry>) {
    forall e <- list ::
      e.series.patches == c.patches(e.series.id) && (e.lookup || c.lookupsFail || e.series.id !in seen)
  }

  ghost predicate Takes(seen: set<Id>, e: Entry) {
    Intake.Wanted(seen, e.series, AnswerOf(e))
  }

  /** The steps of the tasks of these entries. */
  ghost function TaskSteps(seen: set<Id>, e: Entry): seq<Action> {
    [Front(Intake.CatFilter(e.series.id, AnswerOf(e)))]
    + if !Takes(seen, e) then []
      else if !e.checksOk then [Front(Intake.CatMark(e.series.id))]
      else [Front(Intake.CatMark(e.series.id)), Front(Intake.CatEnqueue(e.series.id))]
  }

  ghost function ListSteps(seen: set<Id>, done: seq<Entry>): seq<Action> {
    if done == [] then [] else TaskSteps(seen, done[0]) + ListSteps(seen, done[1..])
  }

  ghost predicate MarksId(seen0: set<Id>, done: seq<Entry>, id: Id) {
    exists e <- done :: Takes(seen0, e) && e.series.id == id
  }

  ghost predicate QueuesId(seen0: set<Id>, done: seq<Entry>, id: Id) {
    exists e <- done :: Takes(seen0, e) && e.checksOk && e.series.id == id
  }

  ghost predicate NeedsScanned(seen0: set<Id>, needs: map<Id, string>, needs': map<Id, string>, done: seq<Entry>) {
    && (forall id :: id in needs' <==> id in needs || QueuesId(seen0, done, id))
    && (forall e <- done :: Takes(seen0, e) && e.checksOk ==>
          e.series.id in needs' && needs'[e.series.id] == e.series.mbox)
    && (forall id :: id in needs && !QueuesId(seen0, done, id) ==> id in needs' && needs'[id] == needs[id])
  }

  /** Only the tasks that stopped at unreadable checks are still there, and those of other entries. */
  ghost predicate CatScanned(seen0: set<Id>, cat: map<Id, Intake.CatPc>, cat': map<Id, Intake.CatPc>,
                             done: seq<Entry>) {
    && (forall id :: id in cat' <==>
          id in cat && forall e <- done :: e.series.id == id ==> Takes(seen0, e) && !e.checksOk)
    && (forall id :: id in cat && (forall e <- done :: e.series.id != id) ==> cat'[id] == cat[id])
  }

  /** What the tasks of these entries did. */
  ghost predicate Scanned(seen0: set<Id>, s: State, s': State, done: seq<Entry>) {
    && (forall id :: id in s'.front.seen <==> id in s.front.seen || MarksId(seen0, done, id))
    && NeedsScanned(seen0, s.front.needsTesting, s'.front.needsTesting, done)
    && CatScanned(seen0, s.front.cat, s'.front.cat, done)
    && s'.front.awaiting == s.front.awaiting && s'.front.failures == s.front.failures
    && s'.front.onWorker == s.front.onWorker && s'.ci == s.ci && s'.out == s.out
  }

  lemma IdsOfMore(seen0: set<Id>, e: Entry, rest: seq<Entry>, id: Id)
    ensures MarksId(seen0, [e] + rest, id) <==> MarksId(seen0, [e], id) || MarksId(seen0, rest, id)
    ensures QueuesId(seen0, [e] + rest, id) <==> QueuesId(seen0, [e], id) || QueuesId(seen0, rest, id)
    ensures QueuesId(seen0, [e], id) <==> Takes(seen0, e) && e.checksOk && e.series.id == id
  {
    hide Takes;
    assert forall d :: d in [e] + rest <==> d == e || d in rest;
    assert e in [e];
  }

  /** The entry's task has not begun, and its series is as it was when the scan began. */
  ghost predicate Ready(c: Config, seen0: set<Id>, s: State, e: Entry) {
    && e.series.id in s.front.cat && s.front.cat[e.series.id] == Intake.Listed(e.series)
    && (e.series.id in s.front.seen <==> e.series.id in seen0)
    && e.series.patches == c.patches(e.series.id) && (e.lookup || c.lookupsFail || e.series.id !in seen0)
  }

  lemma FilterRuns(c: Config, seen0: set<Id>, s: State, e: Entry) returns (s': State)
    requires Ready(c, seen0, s, e)
    ensures var filter := [Front(Intake.CatFilter(e.series.id, AnswerOf(e)))];
            Legal(c, s, filter) && s' == Run(c, s, filter)
    ensures s' == s.(front := s.front.(passed := s'.front.passed, cat := s'.front.cat))
    ensures s'.front.cat == if Takes(seen0, e) then s.front.cat[e.series.id := Intake.Passed(e.series.mbox)]
                            else s.front.cat - {e.series.id}
  {
    Refinement.Stay(c, s);
    WantedDependsOnOwnId(seen0, s.front.seen, e.series, AnswerOf(e));
    hide Legal, Run, Intake.Wanted;
    var filter := Front(Intake.CatFilter(e.series.id, AnswerOf(e)));
    Refinement.Then(c, s, [], filter);
    assert [] + [filter] == [filter];
    s' := Run(c, s, [filter]);
  }

  lemma MarkRuns(c: Config, s: State, id: Id, mbox: string) returns (s': State)
    requires id in s.front.cat && s.front.cat[id] == Intake.Passed(mbox)
    ensures Legal(c, s, [Front(Intake.CatMark(id))]) && s' == Run(c, s, [Front(Intake.CatMark(id))])
    ensures s' == s.(front := s.front.(seen := s.front.seen + {id}, cat := s.front.cat[id := Intake.Marked(mbox)],
                                       stage := s'.front.stage))
  {
    Refinement.Stay(c, s);
    hide Legal, Run;
    var mark := Front(Intake.CatMark(id));
    Refinement.Then(c, s, [], mark);
    assert [] + [mark] == [mark];
    s' := Run(c, s, [mark]);
  }

  lemma EnqueueRuns(c: Config, s: State, id: Id, mbox: string) returns (s': State)
    requires id in s.front.cat && s.front.cat[id] == Intake.Marked(mbox) && c.patches(id) != []
    ensures Legal(c, s, [Front(Intake.CatEnqueue(id))]) && s' == Run(c, s, [Front(Intake.CatEnqueue(id))])
    ensures s' == s.(front := s.front.(needsTesting := s.front.needsTesting[id := mbox], cat := s.front.cat - {id},
                                       stage := s'.front.stage, entered := s'.front.entered, mbox := s'.front.mbox))
  {
    Refinement.Stay(c, s);
    hide Legal, Run;
    var enqueue := Front(Intake.CatEnqueue(id));
    Refinement.Then(c, s, [], enqueue);
    assert [] + [enqueue] == [enqueue];
    s' := Run(c, s, [enqueue]);
  }

  /** One entry. */
  lemma TaskRuns(c: Config, seen0: set<Id>, s: State, e: Entry) returns (s': State)
    requires Ready(c, seen0, s, e)
    ensures Legal(c, s, TaskSteps(seen0, e)) && s' == Run(c, s, TaskSteps(seen0, e))
    ensures Scanned(seen0, s, s', [e])
  {
    hide Legal, Run, Takes, Scanned;
    var id := e.series.id;
    var filter, mark, enqueue := Front(Intake.CatFilter(id, AnswerOf(e))), Front(Intake.CatMark(id)),
        Front(Intake.CatEnqueue(id));
    s' := FilterRuns(c, seen0, s, e);
    assert [filter] + [] == [filter] && [filter] + [mark] == [filter, mark];
    assert [filter, mark] + [enqueue] == [filter] + [mark, enqueue];
    if Takes(seen0, e) {
      WantedHasPatches(seen0, e);
      s' := MarkRuns(c, s', id, e.series.mbox);
      RunAppend(c, s, [filter], [mark]);
      if e.checksOk {
        s' := EnqueueRuns(c, s', id, e.series.mbox);
        RunAppend(c, s, [filter, mark], [enqueue]);
      }
    }
    OneScanned(seen0, s, s', e);
  }

  lemma WantedHasPatches(seen: set<Id>, e: Entry)
    requires Takes(seen, e)
    ensures e.series.patches != []
  {
  }

  lemma OneScanned(seen0: set<Id>, s: State, s': State, e: Entry)
    requires e.series.id in s.front.cat && s'.ci == s.ci && s'.out == s.out
    requires s'.front.awaiting == s.front.awaiting && s'.front.failures == s.front.failures
    requires s'.front.onWorker == s.front.onWorker
    requires s'.front.seen == s.front.seen + if Takes(seen0, e) then {e.series.id} else {}
    requires s'.front.needsTesting ==
               if Takes(seen0, e) && e.checksOk then s.front.needsTesting[e.series.id := e.series.mbox]
               else s.front.needsTesting
    requires forall id :: id in s'.front.cat <==>
               id in s.front.cat && (id == e.series.id ==> Takes(seen0, e) && !e.checksOk)
    requires forall id :: id in s'.front.cat && id != e.series.id ==> s'.front.cat[id] == s.front.cat[id]
    ensures Scanned(seen0, s, s', [e])
  {
    hide Takes;
    assert e in [e];
  }

  lemma ScannedMore(seen0: set<Id>, s: State, s1: State, s2: State, e: Entry, rest: seq<Entry>)
    requires Scanned(seen0, s, s1, [e]) && Scanned(seen0, s1, s2, rest)
    requires forall d <- rest :: d.series.id != e.series.id
    ensures Scanned(seen0, s, s2, [e] + rest)
  {
    hide Takes, MarksId, QueuesId, NeedsScanned, CatScanned;
    NeedsMore(seen0, s.front.needsTesting, s1.front.needsTesting, s2.front.needsTesting, e, rest);
    CatMore(seen0, s.front.cat, s1.front.cat, s2.front.cat, e, rest);
    forall id ensures id in s2.front.seen <==> id in s.front.seen || MarksId(seen0, [e] + rest, id) {
      IdsOfMore(seen0, e, rest, id);
    }
  }

  lemma NeedsMore(seen0: set<Id>, needs: map<Id, string>, needs1: map<Id, string>, needs2: map<Id, string>, e: Entry,
                  rest: seq<Entry>)
    requires NeedsScanned(seen0, needs, needs1, [e]) && NeedsScanned(seen0, needs1, needs2, rest)
    requires forall d <- rest :: d.series.id != e.series.id
    ensures NeedsScanned(seen0, needs, needs2, [e] + rest)
  {
    assert !QueuesId(seen0, rest, e.series.id);
    hide Takes, QueuesId;
    assert forall d :: d in [e] + rest <==> d == e || d in rest;
    assert e in [e];
    forall id {:trigger QueuesId(seen0, [e] + rest, id)} {
      IdsOfMore(seen0, e, rest, id);
    }
  }

  lemma CatMore(seen0: set<Id>, cat: map<Id, Intake.CatPc>, cat1: map<Id, Intake.CatPc>, cat2: map<Id, Intake.CatPc>,
                e: Entry, rest: seq<Entry>)
    requires CatScanned(seen0, cat, cat1, [e]) && CatScanned(seen0, cat1, cat2, rest)
    ensures CatScanned(seen0, cat, cat2, [e] + rest)
  {
    hide Takes;
    assert forall d :: d in [e] + rest <==> d == e || d in rest;
    assert forall d :: d in [e] <==> d == e;
  }

  lemma NothingScanned(seen0: set<Id>, s: State)
    ensures Scanned(seen0, s, s, [])
  {
  }

  lemma {:induction false} ListRuns(c: Config, seen0: set<Id>, s: State, done: seq<Entry>) returns (s': State)
    requires IdsDiffer(done) && forall e <- done :: Ready(c, seen0, s, e)
    ensures Legal(c, s, ListSteps(seen0, done)) && s' == Run(c, s, ListSteps(seen0, done))
    ensures Scanned(seen0, s, s', done)
    decreases |done|
  {
    hide Scanned, Ready, TaskSteps;
    if done == [] {
      s' := s;
      Refinement.Stay(c, s);
      NothingScanned(seen0, s);
    } else {
      hide Legal, Run;
      var s1 := TaskRuns(c, seen0, s, done[0]);
      StillReady(c, seen0, s, s1, done);
      s' := ListRuns(c, seen0, s1, done[1..]);
      RunAppend(c, s, TaskSteps(seen0, done[0]), ListSteps(seen0, done[1..]));
      ScannedMore(seen0, s, s1, s', done[0], done[1..]);
      assert [done[0]] + done[1..] == done;
    }
  }

  lemma StillReady(c: Config, seen0: set<Id>, s: State, s1: State, done: seq<Entry>)
    requires done != [] && IdsDiffer(done) && (forall e <- done :: Ready(c, seen0, s, e))
    requires Scanned(seen0, s, s1, [done[0]])
    ensures IdsDiffer(done[1..]) && forall e <- done[1..] :: e.series.id != done[0].series.id && Ready(c, seen0, s1, e)
  {
    hide Takes;
    forall e <- done[1..] ensures e.series.id != done[0].series.id && Ready(c, seen0, s1, e) {
      assert e in done;
    }
  }

  // ---- and the trees it leaves ----

  /** What `CheckSeriesList` leaves in all the trees, for any answers and any number of tasks that got
      done before or after an error, is what these steps leave. An error ends the process, and without
      one the scan is over. */
  lemma ScanRefines(c: Config, s: State, list: seq<Entry>, ok: bool, done: seq<Entry>,
                    before: map<string, Tree>, after: map<string, Tree>)
    returns (run: seq<Action>)
    requires Represents(before, s) && s.front.cat == map[]
    requires IdsDiffer(list) && Fits(c, s.front.seen, list)
    requires ScanDone(before, after, list, ok, done)
    ensures run == [Front(Intake.CatList(Listing(list)))] + ListSteps(s.front.seen, done) + if ok then [] else [Crash]
    ensures Legal(c, s, run) && Represents(after, Run(c, s, run))
    ensures ok ==> Run(c, s, run).front.cat == map[]
  {
    hide Legal, Run, At, Unreadable, SeenAfter, QueuedAfter, TreeIn, Scanned, ListSteps, Listing, IdsDiffer, Fits;
    var s0, s1;
    run, s0, s1 := ScanRuns(c, s, list, ok, done);
    if ok {
      ScanIsOver(before, s, s0, s1, list);
    }
    forall p ensures At(after, Run(c, s, run), p) {
      assert At(before, s, p) && At(before, s, Seen);
      ScanPlace(s, s0, s1, done, before, after, p);
      PassRefinement.SameTrees(after, s1, Run(c, s, run), p);
    }
  }

  /** The steps, with the states after the list has arrived and after the last task. */
  lemma ScanRuns(c: Config, s: State, list: seq<Entry>, ok: bool, done: seq<Entry>)
    returns (run: seq<Action>, s0: State, s1: State)
    requires s.front.cat == map[] && IdsDiffer(list) && Fits(c, s.front.seen, list) && done <= list
    ensures run == [Front(Intake.CatList(Listing(list)))] + ListSteps(s.front.seen, done) + if ok then [] else [Crash]
    ensures Legal(c, s, run) && PassRefinement.SameTreesAs(s, s0) && PassRefinement.SameTreesAs(s1, Run(c, s, run))
    ensures ok ==> s1 == Run(c, s, run)
    ensures Scanned(s.front.seen, s0, s1, done)
    ensures forall id <- s0.front.cat :: exists e <- list :: e.series.id == id
  {
    var begin := Front(Intake.CatList(Listing(list)));
    s0 := ListArrives(c, s, list);
    hide Legal, Run, Enabled, Apply, Scanned, ListSteps, Ready, Listing, IdsDiffer, Fits;
    DoneIsReady(c, s, s0, list, done);
    s1 := ListRuns(c, s.front.seen, s0, done);
    Refinement.First(c, s, begin, ListSteps(s.front.seen, done));
    run := [begin] + ListSteps(s.front.seen, done);
    if ok {
      assert run + [] == run;
    } else {
      CrashKeepsTrees(c, s1);
      Refinement.Then(c, s, run, Crash);
      run := run + [Crash];
    }
  }

  lemma CrashKeepsTrees(c: Config, s: State)
    ensures Enabled(c, s, Crash) && PassRefinement.SameTreesAs(s, Apply(c, s, Crash))
  {
  }

  lemma ListArrives(c: Config, s: State, list: seq<Entry>) returns (s0: State)
    requires s.front.cat == map[] && IdsDiffer(list) && Fits(c, s.front.seen, list)
    ensures var a := Front(Intake.CatList(Listing(list))); Enabled(c, s, a) && s0 == Apply(c, s, a)
    ensures PassRefinement.SameTreesAs(s, s0) && s0.ci == s.ci && s0.out == s.out
    ensures forall e <- list :: Ready(c, s.front.seen, s0, e)
    ensures forall id <- s0.front.cat :: exists e <- list :: e.series.id == id
  {
    ListingHolds(list);
    hide Listing;
    s0 := Apply(c, s, Front(Intake.CatList(Listing(list))));
  }

  lemma DoneIsReady(c: Config, s: State, s0: State, list: seq<Entry>, done: seq<Entry>)
    requires done <= list && IdsDiffer(list) && forall e <- list :: Ready(c, s.front.seen, s0, e)
    ensures IdsDiffer(done) && forall e <- done :: Ready(c, s.front.seen, s0, e)
  {
    hide Ready;
    assert forall e <- done :: e in list;
  }

  lemma ScanIsOver(trees: map<string, Tree>, s: State, s0: State, s1: State, list: seq<Entry>)
    requires Represents(trees, s) && !Unreadable(TreeIn(trees, "seen by watchcat"), list)
    requires forall id <- s0.front.cat :: exists e <- list :: e.series.id == id
    requires Scanned(s.front.seen, s0, s1, list)
    ensures s1.front.cat == map[]
  {
    assert At(trees, s, Seen);
    hide WantedEntry, Intake.Wanted, Decimal;
    forall e <- list ensures !(Takes(s.front.seen, e) && !e.checksOk) {
      WantedAgrees(TreeIn(trees, "seen by watchcat"), s.front.seen, e);
    }
    hide Takes;
    assert forall id :: id !in s1.front.cat;
  }

  lemma ScanPlace(s: State, s0: State, s': State, done: seq<Entry>, before: map<string, Tree>, after: map<string, Tree>,
                  p: Place)
    requires At(before, s, p) && At(before, s, Seen)
    requires PassRefinement.SameTreesAs(s, s0) && Scanned(s.front.seen, s0, s', done)
    requires SeenAfter(In(before, Seen), In(after, Seen), done)
    requires QueuedAfter(In(before, Seen), In(before, Needs), In(after, Needs), done)
    requires forall name :: name != "needs testing" && name != "seen by watchcat" ==>
               TreeIn(after, name) == TreeIn(before, name)
    ensures At(after, s', p)
  {
    NamesInUse(0, "");
    NamesApart(p, Needs);
    NamesApart(p, Seen);
    hide NameOf, TreeIn, SeenAfter, QueuedAfter, HoldsIds, HoldsTexts;
    if p == Needs {
      QueuedHolds(In(before, Seen), In(before, p), In(after, p), s, s0, s', done);
    } else if p == Seen {
      SeenHolds(In(before, p), In(after, p), s, s0, s', done);
    } else {
      hide Scanned;
      ScanLeaves(s, s0, s', done, p);
      Frame(before, after, s, s', p);
    }
  }

  lemma ScanLeaves(s: State, s0: State, s': State, done: seq<Entry>, p: Place)
    requires PassRefinement.SameTreesAs(s, s0) && Scanned(s.front.seen, s0, s', done) && p != Needs && p != Seen
    ensures SameAt(s, s', p)
  {
  }

  lemma SeenHolds(before: Tree, after: Tree, s: State, s0: State, s': State, done: seq<Entry>)
    requires HoldsTexts(before, s.front.seen) && SeenAfter(before, after, done)
    requires PassRefinement.SameTreesAs(s, s0) && Scanned(s.front.seen, s0, s', done)
    ensures HoldsTexts(after, s'.front.seen)
  {
    hide Decimal, WantedEntry, Intake.Wanted;
    forall id: Id
      ensures MarkedKey(before, done, Text(Decimal(id))) <==> MarksId(s.front.seen, done, id)
    {
      forall e <- done
        ensures WantedEntry(before, e) && Text(Decimal(id)) == Text(Decimal(e.series.id)) <==>
                  Takes(s.front.seen, e) && e.series.id == id
      {
        WantedAgrees(before, s.front.seen, e);
        IdTextsDiffer(id, e.series.id);
      }
    }
  }

  lemma QueuedHolds(seen: Tree, before: Tree, after: Tree, s: State, s0: State, s': State, done: seq<Entry>)
    requires HoldsTexts(seen, s.front.seen) && HoldsIds(before, s.front.needsTesting)
    requires QueuedAfter(seen, before, after, done)
    requires PassRefinement.SameTreesAs(s, s0) && Scanned(s.front.seen, s0, s', done)
    ensures HoldsIds(after, s'.front.needsTesting)
  {
    hide Decimal, WantedEntry, Takes, HoldsTexts, QueuedKey, QueuesId, Intake.Wanted;
    var needs, needs' := s.front.needsTesting, s'.front.needsTesting;
    forall id: Id ensures QueuedKey(seen, done, Num(id)) <==> QueuesId(s.front.seen, done, id) {
      QueuedAgrees(seen, s.front.seen, done, id);
    }
    forall id: Id
      ensures (Num(id) in after <==> id in needs') && (id in needs' ==> after[Num(id)] == Mbox(needs'[id]))
    {
      if QueuesId(s.front.seen, done, id) {
        QueuedValue(seen, before, after, s.front.seen, needs, needs', done, id);
      }
    }
  }

  lemma QueuedAgrees(tree: Tree, seen: set<Id>, done: seq<Entry>, id: Id)
    requires HoldsTexts(tree, seen)
    ensures QueuedKey(tree, done, Num(id)) <==> QueuesId(seen, done, id)
  {
    hide WantedEntry, Intake.Wanted;
    forall e <- done ensures WantedEntry(tree, e) <==> Takes(seen, e) {
      WantedAgrees(tree, seen, e);
    }
    hide HoldsTexts, Takes;
  }

  lemma QueuedValue(tree: Tree, before: Tree, after: Tree, seen: set<Id>, needs: map<Id, string>,
                    needs': map<Id, string>, done: seq<Entry>, id: Id)
    requires HoldsTexts(tree, seen) && QueuedAfter(tree, before, after, done)
    requires NeedsScanned(seen, needs, needs', done) && QueuesId(seen, done, id)
    ensures Num(id) in after && id in needs' && after[Num(id)] == Mbox(needs'[id])
  {
    var e :| e in done && Takes(seen, e) && e.checksOk && e.series.id == id;
    WantedAgrees(tree, seen, e);
    hide WantedEntry, Intake.Wanted, HoldsTexts, QueuedKey;
  }
}
