/** One scan of the watchcat: its parallel tasks may run in any order, and with any other actor
    in between, and the outcome is the same. Also the scan as the loop over a list. */
module Scan {
  import opened Basics
  import opened Codec
  import opened Database
  import opened Intake

  /** What the scan is told about each series. */
  type Answers = Id -> Answer

  // ---- over all interleavings ----

  predicate Chosen(seen: set<Id>, listing: map<Id, Series>, answers: Answers, id: Id) {
    id in listing && Wanted(seen, listing[id], answers(id))
  }

  /** The step belongs to the scan in progress, with these answers, or to another actor; no new
      scan begins. */
  predicate DuringScan(answers: Answers, a: Action) {
    !a.CatList? && (a.CatFilter? ==> a.answer == answers(a.id))
  }

  predicate ScanRun(c: Config, answers: Answers, f: Front, run: seq<Action>)
    decreases |run|
  {
    run == [] ||
      (Enabled(c, f, run[0]) && DuringScan(answers, run[0]) && ScanRun(c, answers, Apply(c, f, run[0]), run[1..]))
  }

  function RunScan(c: Config, answers: Answers, f: Front, run: seq<Action>): Front
    requires ScanRun(c, answers, f, run)
    decreases |run|
  {
    if run == [] then f else RunScan(c, answers, Apply(c, f, run[0]), run[1..])
  }

  /** How far one series is: `f0` is the state when the list arrived. */
  ghost predicate Progress(f0: Front, listing: map<Id, Series>, answers: Answers, f: Front, id: Id) {
    var untouched := (id in f.seen <==> id in f0.seen) && f.entered[id] == f0.entered[id];
    if !Chosen(f0.seen, listing, answers, id) then
      && untouched
      && (id in f.cat ==> id in listing && f.cat[id] == Listed(listing[id]))
    else if id !in f.cat then
      id in f.seen && f.entered[id] == f0.entered[id] + 1 && id in f.mbox && f.mbox[id] == listing[id].mbox
    else match f.cat[id]
      case Listed(series) => series == listing[id] && untouched
      case Passed(mbox) => mbox == listing[id].mbox && untouched
      case Marked(mbox) => mbox == listing[id].mbox && id in f.seen && f.entered[id] == f0.entered[id]
  }

  ghost predicate AllProgress(f0: Front, listing: map<Id, Series>, answers: Answers, f: Front) {
    forall id :: Progress(f0, listing, answers, f, id)
  }

  lemma ScanBegins(c: Config, f0: Front, listing: map<Id, Series>, answers: Answers)
    requires Enabled(c, f0, CatList(listing))
    ensures AllProgress(f0, listing, answers, Apply(c, f0, CatList(listing)))
  {
  }

  /** The predicate looks at one series only. */
  lemma ProgressFrame(f0: Front, listing: map<Id, Series>, answers: Answers, f: Front, f': Front, id: Id)
    requires Progress(f0, listing, answers, f, id)
    requires (id in f'.seen <==> id in f.seen) && f'.entered[id] == f.entered[id]
    requires (id in f'.cat <==> id in f.cat) && (id in f.cat ==> f'.cat[id] == f.cat[id])
    requires id in f.mbox ==> id in f'.mbox && f'.mbox[id] == f.mbox[id]
    ensures Progress(f0, listing, answers, f', id)
  {
    hide Wanted;
  }

  lemma FilterStep(c: Config, f0: Front, listing: map<Id, Series>, answers: Answers, f: Front, a: Action, id: Id)
    requires a.CatFilter?
    requires (forall k <- listing :: listing[k].id == k) && Progress(f0, listing, answers, f, id)
    requires Enabled(c, f, a) && DuringScan(answers, a)
    ensures Progress(f0, listing, answers, Apply(c, f, a), id)
  {
    hide Wanted, Progress;
    if id == a.id {
      OwnFilterStep(c, f0, listing, answers, f, a);
    } else {
      FilterLeaves(c, f, a, id);
      hide Apply, Enabled;
      ProgressFrame(f0, listing, answers, f, Apply(c, f, a), id);
    }
  }

  /** A filter touches nothing but its own task. */
  lemma FilterLeaves(c: Config, f: Front, a: Action, id: Id)
    requires a.CatFilter? && Enabled(c, f, a)
    ensures var f' := Apply(c, f, a);
            && f'.seen == f.seen && f'.entered == f.entered && f'.mbox == f.mbox && f'.needsTesting == f.needsTesting
            && (id != a.id ==> (id in f'.cat <==> id in f.cat) && (id in f.cat ==> f'.cat[id] == f.cat[id]))
  {
    var series := f.cat[a.id].series;
    hide Enabled;
    if Wanted(f.seen, series, a.answer) {
      assert Apply(c, f, a) == f.(cat := f.cat[a.id := Passed(series.mbox)], passed := f.passed + {a.id});
    } else {
      assert Apply(c, f, a) == f.(cat := f.cat - {a.id});
    }
    hide Apply, Wanted;
  }

  lemma OwnFilterStep(c: Config, f0: Front, listing: map<Id, Series>, answers: Answers, f: Front, a: Action)
    requires a.CatFilter?
    requires (forall k <- listing :: listing[k].id == k) && Progress(f0, listing, answers, f, a.id)
    requires Enabled(c, f, a) && DuringScan(answers, a)
    ensures Progress(f0, listing, answers, Apply(c, f, a), a.id)
  {
    hide Wanted;
    WantedDependsOnOwnId(f.seen, f0.seen, listing[a.id], a.answer);
  }

  lemma WantedDependsOnOwnId(seen: set<Id>, other: set<Id>, series: Series, answer: Answer)
    requires series.id in seen <==> series.id in other
    ensures Wanted(seen, series, answer) <==> Wanted(other, series, answer)
  {
  }

  lemma MarkStep(c: Config, f0: Front, listing: map<Id, Series>, answers: Answers, f: Front, a: Action, id: Id)
    requires a.CatMark?
    requires (forall k <- listing :: listing[k].id == k) && Progress(f0, listing, answers, f, id)
    requires Enabled(c, f, a) && DuringScan(answers, a)
    ensures Progress(f0, listing, answers, Apply(c, f, a), id)
  {
  }

  lemma EnqueueStep(c: Config, f0: Front, listing: map<Id, Series>, answers: Answers, f: Front, a: Action, id: Id)
    requires a.CatEnqueue?
    requires (forall k <- listing :: listing[k].id == k) && Progress(f0, listing, answers, f, id)
    requires Enabled(c, f, a) && DuringScan(answers, a)
    ensures Progress(f0, listing, answers, Apply(c, f, a), id)
  {
  }

  lemma OtherStep(c: Config, f0: Front, listing: map<Id, Series>, answers: Answers, f: Front, a: Action, id: Id)
    requires !a.CatList? && !a.CatFilter? && !a.CatMark? && !a.CatEnqueue?
    requires Progress(f0, listing, answers, f, id) && Enabled(c, f, a)
    ensures Progress(f0, listing, answers, Apply(c, f, a), id)
  {
    hide Wanted, Progress;
    ProgressFrame(f0, listing, answers, f, Apply(c, f, a), id);
  }

  lemma {:induction false} ScanKeepsProgress(c: Config, f0: Front, listing: map<Id, Series>, answers: Answers, f: Front,
                                             run: seq<Action>)
    requires (forall k <- listing :: listing[k].id == k) && AllProgress(f0, listing, answers, f) &&
             ScanRun(c, answers, f, run)
    ensures AllProgress(f0, listing, answers, RunScan(c, answers, f, run))
    decreases |run|
  {
    if run != [] {
      var a, f' := run[0], Apply(c, f, run[0]);
      hide Apply, Enabled, Progress;
      forall id ensures Progress(f0, listing, answers, f', id) {
        assert Progress(f0, listing, answers, f, id);
        match a
        case CatFilter(_, _) => FilterStep(c, f0, listing, answers, f, a, id);
        case CatMark(_) => MarkStep(c, f0, listing, answers, f, a, id);
        case CatEnqueue(_) => EnqueueStep(c, f0, listing, answers, f, a, id);
        case _ => OtherStep(c, f0, listing, answers, f, a, id);
      }
      ScanKeepsProgress(c, f0, listing, answers, f', run[1..]);
    }
  }

  /** Confluence: in whatever order the tasks of a scan run, and whatever the other actors do
      meanwhile, once the scan is over exactly the chosen series were marked as seen and entered
      "needs testing", once each and with their own mbox. */
  lemma ScanIsConfluent(c: Config, f0: Front, listing: map<Id, Series>, answers: Answers, run: seq<Action>)
    requires Enabled(c, f0, CatList(listing))
    requires ScanRun(c, answers, Apply(c, f0, CatList(listing)), run)
    requires RunScan(c, answers, Apply(c, f0, CatList(listing)), run).cat == map[]
    ensures var f := RunScan(c, answers, Apply(c, f0, CatList(listing)), run);
            && f.seen == f0.seen + (set id <- listing | Chosen(f0.seen, listing, answers, id))
            && (forall id :: f.entered[id] == f0.entered[id] + if Chosen(f0.seen, listing, answers, id) then 1 else 0)
            && (forall id :: Chosen(f0.seen, listing, answers, id) ==> id in f.mbox && f.mbox[id] == listing[id].mbox)
  {
    ScanBegins(c, f0, listing, answers);
    ScanKeepsProgress(c, f0, listing, answers, Apply(c, f0, CatList(listing)), run);
    var f := RunScan(c, answers, Apply(c, f0, CatList(listing)), run);
    hide Apply, Enabled, RunScan, ScanRun, Wanted;
    forall id
      ensures id in f.seen <==> id in f0.seen || Chosen(f0.seen, listing, answers, id)
      ensures f.entered[id] == f0.entered[id] + if Chosen(f0.seen, listing, answers, id) then 1 else 0
      ensures Chosen(f0.seen, listing, answers, id) ==> id in f.mbox && f.mbox[id] == listing[id].mbox
    {
      assert Progress(f0, listing, answers, f, id);
    }
  }

  /** The filters apart from the look-up. */
  predicate Passes(series: Series, answer: Answer) {
    series.receivedAll && series.receivedTotal > 0 && series.patches != [] && answer.patch.Some?
    && ActionRequired(answer.patch.value)
  }

  /** Idempotence: when what was chosen from a list has been seen, scanning the same list again
      with the same patches, whatever happened in between, other scans included, queues exactly the
      series that pass the filters and whose look-up fails: none if none fails. */
  lemma RepeatedScanQueuesNothing(c: Config, seen0: set<Id>, before: Answers, f1: Front, listing: map<Id, Series>,
                                  answers: Answers, run: seq<Action>)
    requires forall id :: before(id).patch == answers(id).patch
    requires f1.seen >= seen0 + (set id <- listing | Chosen(seen0, listing, before, id))
    requires Enabled(c, f1, CatList(listing))
    requires ScanRun(c, answers, Apply(c, f1, CatList(listing)), run)
    requires RunScan(c, answers, Apply(c, f1, CatList(listing)), run).cat == map[]
    ensures var f := RunScan(c, answers, Apply(c, f1, CatList(listing)), run);
            && f.seen == f1.seen
            && (forall id :: f.entered[id] == f1.entered[id]
                  + if id in listing && Passes(listing[id], answers(id)) && !answers(id).lookup then 1 else 0)
            && (f.entered == f1.entered <==>
                  forall id <- listing :: Passes(listing[id], answers(id)) ==> answers(id).lookup)
  {
    ScanIsConfluent(c, f1, listing, answers, run);
    forall id
      ensures Chosen(f1.seen, listing, answers, id) <==>
                id in listing && Passes(listing[id], answers(id)) && !answers(id).lookup
      ensures Chosen(f1.seen, listing, answers, id) ==> id in f1.seen
    {
      if id in listing && id !in f1.seen {
        assert !Chosen(seen0, listing, before, id);
      }
    }
    hide Chosen, Passes;
    var f := RunScan(c, answers, Apply(c, f1, CatList(listing)), run);
    if f.entered == f1.entered {
      assert forall id :: f.entered[id] == f1.entered[id];
    }
  }

  // ---- with nobody else at work ----

  /** Only the tasks of the scan itself. */
  predicate OwnStep(a: Action) {
    a.CatFilter? || a.CatMark? || a.CatEnqueue?
  }

  /** What entered since the scan began is in the tree with its value, the rest is as it was. */
  ghost predicate QueueGrew(f0: Front, f: Front) {
    forall id :: GrewAt(f0, f, id)
  }

  ghost predicate GrewAt(f0: Front, f: Front, id: Id) {
    && f.entered[id] >= f0.entered[id]
    && if f.entered[id] > f0.entered[id] then id in f.needsTesting && id in f.mbox && f.needsTesting[id] == f.mbox[id]
       else (id in f.needsTesting <==> id in f0.needsTesting)
            && (id in f0.needsTesting ==> f.needsTesting[id] == f0.needsTesting[id])
  }

  lemma {:induction false} OwnRunGrowsQueue(c: Config, f0: Front, answers: Answers, f: Front, run: seq<Action>)
    requires QueueGrew(f0, f) && ScanRun(c, answers, f, run) && forall a <- run :: OwnStep(a)
    ensures QueueGrew(f0, RunScan(c, answers, f, run))
    decreases |run|
  {
    if run != [] {
      assert OwnStep(run[0]) && forall a <- run[1..] :: a in run;
      OwnStepGrowsQueue(c, f0, f, run[0]);
      hide Apply, Enabled, QueueGrew;
      OwnRunGrowsQueue(c, f0, answers, Apply(c, f, run[0]), run[1..]);
    }
  }

  lemma OwnStepGrowsQueue(c: Config, f0: Front, f: Front, a: Action)
    requires QueueGrew(f0, f) && Enabled(c, f, a) && OwnStep(a)
    ensures QueueGrew(f0, Apply(c, f, a))
  {
    hide Enabled, Apply, GrewAt;
    forall id ensures GrewAt(f0, Apply(c, f, a), id) {
      assert GrewAt(f0, f, id);
      if a.CatEnqueue? {
        EnqueueGrows(c, f0, f, a, id);
      } else {
        MarkGrows(c, f0, f, a, id);
      }
    }
  }

  lemma EnqueueGrows(c: Config, f0: Front, f: Front, a: Action, id: Id)
    requires GrewAt(f0, f, id) && Enabled(c, f, a) && a.CatEnqueue?
    ensures GrewAt(f0, Apply(c, f, a), id)
  {
  }

  lemma MarkGrows(c: Config, f0: Front, f: Front, a: Action, id: Id)
    requires GrewAt(f0, f, id) && Enabled(c, f, a) && (a.CatFilter? || a.CatMark?)
    ensures GrewAt(f0, Apply(c, f, a), id)
  {
    if a.CatFilter? {
      FilterLeaves(c, f, a, id);
      hide Apply, Enabled;
    }
  }

  /** Without other actors a scan in any order leaves the same "needs testing": what was there, and
      the chosen series with their mbox. */
  lemma ScanAloneLeavesTrees(c: Config, f0: Front, listing: map<Id, Series>, answers: Answers, run: seq<Action>)
    requires Enabled(c, f0, CatList(listing))
    requires ScanRun(c, answers, Apply(c, f0, CatList(listing)), run) && forall a <- run :: OwnStep(a)
    requires RunScan(c, answers, Apply(c, f0, CatList(listing)), run).cat == map[]
    ensures var f := RunScan(c, answers, Apply(c, f0, CatList(listing)), run);
            && f.seen == f0.seen + (set id <- listing | Chosen(f0.seen, listing, answers, id))
            && f.needsTesting == f0.needsTesting
                 + (map id | id in listing && Chosen(f0.seen, listing, answers, id) :: listing[id].mbox)
  {
    ScanIsConfluent(c, f0, listing, answers, run);
    var f1 := Apply(c, f0, CatList(listing));
    assert QueueGrew(f0, f1) && f1.needsTesting == f0.needsTesting;
    OwnRunGrowsQueue(c, f0, answers, f1, run);
    var f := RunScan(c, answers, f1, run);
    var chosen := map id | id in listing && Chosen(f0.seen, listing, answers, id) :: listing[id].mbox;
    hide Apply, Enabled, RunScan, ScanRun, Chosen;
    forall id
      ensures id in f.needsTesting <==> id in f0.needsTesting + chosen
      ensures id in f.needsTesting ==> f.needsTesting[id] == (f0.needsTesting + chosen)[id]
    {
      assert GrewAt(f0, f, id);
      ChosenIsListed(f0.seen, listing, answers, id);
    }
  }

  lemma ChosenIsListed(seen: set<Id>, listing: map<Id, Series>, answers: Answers, id: Id)
    ensures Chosen(seen, listing, answers, id) ==> id in listing
  {
  }

  // ---- as a loop over the list ----

  /** The answers about one listed series: whether its look-up succeeded, its last patch, and
      whether its checks could be read. */
  datatype Entry = Entry(series: Series, lookup: bool, patch: Option<Patch>, checksOk: bool)

  /** The filters, with "seen by watchcat" as the tree it is. */
  predicate WantedEntry(tree: Tree, e: Entry) {
    && e.series.receivedAll && e.series.receivedTotal > 0
    && (e.lookup ==> Text(Decimal(e.series.id)) !in tree)
    && e.series.patches != [] && e.patch.Some? && ActionRequired(e.patch.value)
  }

  /** `check_state`: it looks at the first patch, and queues the series whatever its checks are. */
  method CheckState(db: Db, e: Entry) returns (ok: bool)
    modifies db
    ensures ok <==> e.series.patches != [] && e.checksOk
    ensures TreeIn(db.trees, "needs testing") ==
            (if ok then TreeIn(old(db.trees), "needs testing")[Num(e.series.id) := Mbox(e.series.mbox)]
             else TreeIn(old(db.trees), "needs testing"))
    ensures forall name :: name != "needs testing" ==> TreeIn(db.trees, name) == TreeIn(old(db.trees), name)
  {
    if e.series.patches == [] || !e.checksOk {
      return false;
    }
    db.Insert("needs testing", Num(e.series.id), Mbox(e.series.mbox));
    ok := true;
  }

  /** A wanted series of a list has this key in "seen by watchcat". */
  ghost predicate MarkedKey(seen0: Tree, done: seq<Entry>, key: Key) {
    exists e <- done :: WantedEntry(seen0, e) && key == Text(Decimal(e.series.id))
  }

  ghost predicate SeenAfter(before: Tree, after: Tree, done: seq<Entry>) {
    && (forall key :: key in after <==> key in before || MarkedKey(before, done, key))
    && (forall key :: key in after ==> after[key] == if MarkedKey(before, done, key) then Hello else before[key])
  }

  /** A readable wanted series of a list has this key in "needs testing". */
  ghost predicate QueuedKey(seen0: Tree, done: seq<Entry>, key: Key) {
    exists e <- done :: WantedEntry(seen0, e) && e.checksOk && key == Num(e.series.id)
  }

  /** The readable wanted series of a list are in the queue with their mbox, in addition to what
      was there. */
  ghost predicate QueuedAfter(seen0: Tree, before: Tree, after: Tree, done: seq<Entry>) {
    && (forall key :: key in after <==> key in before || QueuedKey(seen0, done, key))
    && (forall key :: key in before && !QueuedKey(seen0, done, key) ==> after[key] == before[key])
    && (forall e <- done :: WantedEntry(seen0, e) && e.checksOk ==>
          Num(e.series.id) in after && after[Num(e.series.id)] == Mbox(e.series.mbox))
  }

  lemma MarkedKeyStep(seen0: Tree, done: seq<Entry>, e: Entry, key: Key)
    ensures MarkedKey(seen0, done + [e], key) <==>
              MarkedKey(seen0, done, key) || (WantedEntry(seen0, e) && key == Text(Decimal(e.series.id)))
  {
    hide WantedEntry, Decimal;
    assert forall d :: d in done + [e] <==> d in done || d == e;
  }

  lemma QueuedKeyStep(seen0: Tree, done: seq<Entry>, e: Entry, key: Key)
    ensures QueuedKey(seen0, done + [e], key) <==>
              QueuedKey(seen0, done, key) || (WantedEntry(seen0, e) && e.checksOk && key == Num(e.series.id))
  {
    hide WantedEntry;
    assert forall d :: d in done + [e] <==> d in done || d == e;
  }

  lemma SeenStep(before: Tree, now: Tree, done: seq<Entry>, e: Entry)
    requires SeenAfter(before, now, done) && forall d <- done :: Decimal(d.series.id) != Decimal(e.series.id)
    ensures WantedEntry(now, e) <==> WantedEntry(before, e)
    ensures SeenAfter(before, if WantedEntry(before, e) then now[Text(Decimal(e.series.id)) := Hello] else now,
                      done + [e])
  {
    hide Decimal;
    assert !MarkedKey(before, done, Text(Decimal(e.series.id)));
    hide MarkedKey;
    forall key {:trigger MarkedKey(before, done + [e], key)} {
      MarkedKeyStep(before, done, e, key);
    }
  }

  lemma QueuedStep(seen0: Tree, before: Tree, now: Tree, done: seq<Entry>, e: Entry)
    requires QueuedAfter(seen0, before, now, done) && forall d <- done :: d.series.id != e.series.id
    ensures var more := now[Num(e.series.id) := Mbox(e.series.mbox)];
            var next := if WantedEntry(seen0, e) && e.checksOk then more else now;
            QueuedAfter(seen0, before, next, done + [e])
  {
    hide WantedEntry, QueuedKey;
    assert forall d :: d in done + [e] <==> d in done || d == e;
    forall key {:trigger QueuedKey(seen0, done + [e], key)} {
      QueuedKeyStep(seen0, done, e, key);
    }
  }

  ghost predicate Unreadable(seen0: Tree, done: seq<Entry>) {
    exists e <- done :: WantedEntry(seen0, e) && !e.checksOk
  }

  /** What a scan of the list leaves: `done` are the entries dealt with, all unless there was an error. */
  ghost predicate ScanDone(before: map<string, Tree>, after: map<string, Tree>, list: seq<Entry>, ok: bool,
                           done: seq<Entry>) {
    var seen0 := TreeIn(before, "seen by watchcat");
    && (ok <==> !Unreadable(seen0, list))
    && (if ok then done == list else [] < done <= list && Unreadable(seen0, done))
    && SeenAfter(seen0, TreeIn(after, "seen by watchcat"), done)
    && QueuedAfter(seen0, TreeIn(before, "needs testing"), TreeIn(after, "needs testing"), done)
    && (forall name :: name != "needs testing" && name != "seen by watchcat" ==>
          TreeIn(after, name) == TreeIn(before, name))
  }

  /** `check_series_list` for a list with distinct ids in the order its parallel tasks come to it.
      It fails exactly when the checks of a wanted series cannot be read. Then at most `more`
      further tasks get done; `done` are all that were, and each of them, before or after the
      error, marked its series if wanted, and queued it unless its own checks were unreadable. */
  method CheckSeriesList(db: Db, list: seq<Entry>, more: nat) returns (ok: bool, ghost done: seq<Entry>)
    requires forall i, j :: 0 <= i < j < |list| ==> list[i].series.id != list[j].series.id
    modifies db
    ensures ScanDone(old(db.trees), db.trees, list, ok, done)
  {
    hide TreeIn, Decimal, SeenAfter, QueuedAfter;
    ghost var seen0 := TreeIn(db.trees, "seen by watchcat");
    StartOfList(seen0, TreeIn(db.trees, "needs testing"));
    var i, left := 0, more;
    ok := true;
    while i < |list| && (ok || left > 0)
      invariant i <= |list| && (!ok ==> i > 0)
      invariant ok <==> !Unreadable(seen0, list[..i])
      invariant SeenAfter(seen0, TreeIn(db.trees, "seen by watchcat"), list[..i])
      invariant QueuedAfter(seen0, TreeIn(old(db.trees), "needs testing"), TreeIn(db.trees, "needs testing"), list[..i])
      invariant forall name :: name != "needs testing" && name != "seen by watchcat" ==>
                  TreeIn(db.trees, name) == TreeIn(old(db.trees), name)
      decreases |list| - i
    {
      var e := list[i];
      assert list[..i + 1] == list[..i] + [e];
      OthersHaveOtherKeys(list, i);
      ghost var seenNow, needsNow := TreeIn(db.trees, "seen by watchcat"), TreeIn(db.trees, "needs testing");
      SeenStep(seen0, seenNow, list[..i], e);
      QueuedStep(seen0, TreeIn(old(db.trees), "needs testing"), needsNow, list[..i], e);
      UnreadableStep(seen0, list[..i], e);
      if !ok {
        left := left - 1;
      }
      if WantedEntry(db.Open("seen by watchcat"), e) {
        db.Insert("seen by watchcat", Text(Decimal(e.series.id)), Hello);
        var queued := CheckState(db, e);
        ok := ok && queued;
      }
      i := i + 1;
    }
    done := list[..i];
    assert list == list[..i] + list[i..];
    assert i == |list| ==> list[..i] == list;
    assert forall e <- list[..i] :: e in list;
  }

  lemma UnreadableStep(seen0: Tree, done: seq<Entry>, e: Entry)
    ensures Unreadable(seen0, done + [e]) <==> Unreadable(seen0, done) || (WantedEntry(seen0, e) && !e.checksOk)
  {
    hide WantedEntry;
    assert forall d :: d in done + [e] <==> d in done || d == e;
  }

  lemma StartOfList(seen0: Tree, needs: Tree)
    ensures SeenAfter(seen0, seen0, []) && QueuedAfter(seen0, needs, needs, [])
  {
  }

  lemma OthersHaveOtherKeys(list: seq<Entry>, i: nat)
    requires i < |list|
    requires forall i, j :: 0 <= i < j < |list| ==> list[i].series.id != list[j].series.id
    ensures forall d <- list[..i] :: d.series.id != list[i].series.id
    ensures forall d <- list[..i] :: Decimal(d.series.id) != Decimal(list[i].series.id)
  {
    forall d | d in list[..i]
      ensures d.series.id != list[i].series.id && Decimal(d.series.id) != Decimal(list[i].series.id)
    {
      DecimalRoundTrip(d.series.id);
      DecimalRoundTrip(list[i].series.id);
    }
  }
}
