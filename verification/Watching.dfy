/** The completion watcher as the loop it is: it asks for progress, reports jobs that finished
    since, and leaves when all are finished. */
module Watching {
  import opened Basics
  import opened Codec
  import opened Database
  import Ci
  import GitHub

  // ---- what a sequence of answers amounts to ----

  /** An answer of `get_progress`; `None` is an error, which ends the watcher. */
  type Poll = Option<seq<RunnerResult>>

  /** `polls` counts the answers that were used. */
  datatype End = AllDone(polls: nat) | AskFailed(polls: nat) | StillWaiting

  /** The watcher stops at the first answer that is an error or has only finished jobs. */
  predicate Stops(poll: Poll) {
    poll.None? || forall r <- poll.value :: Ci.Finished(r)
  }

  /** All finished jobs of the answers the watcher gets to see, in the order it sees them. */
  function Heard(polls: seq<Poll>): seq<RunnerResult> {
    if polls == [] || polls[0].None? then []
    else Ci.FinishedOf(polls[0].value) + if Stops(polls[0]) then [] else Heard(polls[1..])
  }

  /** The jobs of a list whose name was neither known before nor occurs earlier in it. */
  function News(known: seq<string>, heard: seq<RunnerResult>): seq<RunnerResult>
    decreases |heard|
  {
    if heard == [] then []
    else if heard[0].name in known then News(known, heard[1..])
    else [heard[0]] + News(known + [heard[0].name], heard[1..])
  }

  function Names(results: seq<RunnerResult>): (names: seq<string>)
    ensures |names| == |results|
    ensures forall i :: 0 <= i < |results| ==> names[i] == results[i].name
  {
    seq(|results|, i requires 0 <= i < |results| => results[i].name)
  }

  function Written(tree: Tree, handle: Handle, id: Id, news: seq<RunnerResult>): Tree
    decreases |news|
  {
    if news == [] then tree
    else Written(tree[Text(FormatKey(handle, id, news[0].name)) := Result(news[0])], handle, id, news[1..])
  }

  function WorkingTree(handle: Handle): string {
    handle + " working"
  }

  // ---- the loops ----

  /** The inner loop: one answer's finished jobs. */
  method ReportFinished(db: Db, handle: Handle, id: Id, known: seq<string>, finished: seq<RunnerResult>)
    returns (completed: seq<string>)
    modifies db
    ensures completed == known + Names(News(known, finished))
    ensures TreeIn(db.trees, "needs dispatch") ==
            Written(TreeIn(old(db.trees), "needs dispatch"), handle, id, News(known, finished))
    ensures forall name :: name != "needs dispatch" ==> TreeIn(db.trees, name) == TreeIn(old(db.trees), name)
  {
    hide FormatKey, TreeIn, Written, Names;
    completed := known;
    assert Names([]) == [] &&
           Written(TreeIn(db.trees, "needs dispatch"), handle, id, []) == TreeIn(db.trees, "needs dispatch") by {
      NothingHeard(TreeIn(db.trees, "needs dispatch"), handle, id);
    }
    ghost var start := TreeIn(db.trees, "needs dispatch");
    ghost var done: seq<RunnerResult> := [];
    for i := 0 to |finished|
      invariant News(known, finished) == done + News(completed, finished[i..])
      invariant completed == known + Names(done)
      invariant TreeIn(db.trees, "needs dispatch") == Written(start, handle, id, done)
      invariant forall name :: name != "needs dispatch" ==> TreeIn(db.trees, name) == TreeIn(old(db.trees), name)
    {
      var j := finished[i];
      assert finished[i..][0] == j && finished[i..][1..] == finished[i + 1..];
      if j.name !in completed {
        db.Insert("needs dispatch", Text(FormatKey(handle, id, j.name)), Result(j));
        WrittenAppend(start, handle, id, done, j);
        NamesConcat(done, [j]);
        done := done + [j];
        completed := completed + [j.name];
      }
    }
    assert finished[|finished|..] == [];
    assert done + [] == done;
  }

  /** Which answer ended the watch. */
  ghost predicate EndsAt(polls: seq<Poll>, end: End) {
    match end
    case AllDone(k) => 0 < k <= |polls| && polls[k - 1].Some? && Stops(polls[k - 1]) && NoneStops(polls[..k - 1])
    case AskFailed(k) => 0 < k <= |polls| && polls[k - 1].None? && NoneStops(polls[..k - 1])
    case StillWaiting => NoneStops(polls)
  }

  ghost predicate NoneStops(polls: seq<Poll>) {
    forall i :: 0 <= i < |polls| ==> !Stops(polls[i])
  }

  /** The trees after a watch: the news of what it heard are in "needs dispatch", the series is out
      of the working tree if all its jobs finished, and nothing else changed. */
  ghost predicate WatchDone(before: map<string, Tree>, after: map<string, Tree>, handle: Handle, id: Id,
                            polls: seq<Poll>, end: End) {
    && TreeIn(after, "needs dispatch") == Written(TreeIn(before, "needs dispatch"), handle, id, News([], Heard(polls)))
    && TreeIn(after, WorkingTree(handle)) ==
         TreeIn(before, WorkingTree(handle)) - (if end.AllDone? then {Text(Decimal(id))} else {})
    && forall name :: name != "needs dispatch" && name != WorkingTree(handle) ==>
       TreeIn(after, name) == TreeIn(before, name)
  }

  /** `wait_for_completion`, given the answers it gets. */
  method WaitForCompletion(db: Db, handle: Handle, id: Id, polls: seq<Poll>) returns (end: End, completed: seq<string>)
    modifies db
    ensures EndsAt(polls, end)
    ensures completed == Names(News([], Heard(polls)))
    ensures WatchDone(old(db.trees), db.trees, handle, id, polls, end)
  {
    hide News, Written, WorkingTree, Names, TreeIn, Decimal, Heard, Stops;
    completed := [];
    var i, allDone := 0, false;
    ghost var start := TreeIn(db.trees, "needs dispatch");
    ghost var heard: seq<RunnerResult> := [];
    NotTheSameTree(handle);
    NothingHeard(start, handle, id);
    assert polls[0..] == polls;
    while i < |polls|
      invariant i <= |polls| && !allDone
      invariant NoneStops(polls[..i])
      invariant Heard(polls) == heard + Heard(polls[i..])
      invariant completed == Names(News([], heard))
      invariant TreeIn(db.trees, "needs dispatch") == Written(start, handle, id, News([], heard))
      invariant forall name :: name != "needs dispatch" ==> TreeIn(db.trees, name) == TreeIn(old(db.trees), name)
    {
      HeardStep(polls, i);
      if polls[i].None? {
        assert heard == Heard(polls);
        return AskFailed(i + 1), completed;
      }
      var jobs := polls[i].value;
      var finished := Ci.FinishedOf(jobs);
      MoreHeard(start, handle, id, heard, finished);
      completed := ReportFinished(db, handle, id, completed, finished);
      heard := heard + finished;
      i := i + 1;
      if |jobs| == |finished| {
        assert heard == Heard(polls);
        allDone := true;
        break;
      }
    }
    if allDone {
      db.Remove(WorkingTree(handle), Text(Decimal(id)));
      end := AllDone(i);
    } else {
      HeardEnd(polls, i);
      assert heard == Heard(polls);
      end := StillWaiting;
    }
  }

  /** How one answer adds to what was heard. */
  lemma HeardStep(polls: seq<Poll>, i: nat)
    requires i < |polls|
    ensures polls[i].None? ==> Heard(polls[i..]) == []
    ensures polls[i].Some? ==>
            Heard(polls[i..]) == Ci.FinishedOf(polls[i].value) + if Stops(polls[i]) then [] else Heard(polls[i + 1..])
    ensures polls[i].Some? ==> (Stops(polls[i]) <==> |Ci.FinishedOf(polls[i].value)| == |polls[i].value|)
    ensures polls[..i + 1] == polls[..i] + [polls[i]]
  {
    assert polls[i..][1..] == polls[i + 1..];
  }

  lemma HeardEnd(polls: seq<Poll>, i: nat)
    requires i == |polls|
    ensures Heard(polls[i..]) == [] && polls[..i] == polls
  {
  }

  lemma NothingHeard(tree: Tree, handle: Handle, id: Id)
    ensures News([], []) == [] && Names([]) == [] && Written(tree, handle, id, []) == tree
  {
  }

  /** The effect of one more answer. */
  lemma MoreHeard(tree: Tree, handle: Handle, id: Id, heard: seq<RunnerResult>, finished: seq<RunnerResult>)
    ensures var known, news := Names(News([], heard)), News([], heard);
            && Names(News([], heard + finished)) == known + Names(News(known, finished))
            && Written(tree, handle, id, News([], heard + finished))
               == Written(Written(tree, handle, id, news), handle, id, News(known, finished))
  {
    var known := Names(News([], heard));
    NewsAppend([], heard, finished);
    assert [] + known == known;
    WrittenConcat(tree, handle, id, News([], heard), News(known, finished));
    NamesConcat(News([], heard), News(known, finished));
  }

  lemma NotTheSameTree(handle: Handle)
    ensures WorkingTree(handle) != "needs dispatch"
  {
    var a, b := WorkingTree(handle), "needs dispatch";
    assert a[|a| - 1] == 'g' && b[|b| - 1] == 'h';
  }

  // ---- facts about the lists ----

  lemma {:induction false} NewsAppend(known: seq<string>, a: seq<RunnerResult>, b: seq<RunnerResult>)
    ensures News(known, a + b) == News(known, a) + News(known + Names(News(known, a)), b)
    decreases |a|
  {
    if a == [] {
      assert a + b == b && known + Names([]) == known;
    } else {
      assert (a + b)[1..] == a[1..] + b;
      if a[0].name in known {
        NewsAppend(known, a[1..], b);
      } else {
        var known' := known + [a[0].name];
        NewsAppend(known', a[1..], b);
        assert known' + Names(News(known', a[1..])) == known + Names(News(known, a));
      }
    }
  }

  lemma NewsOfOne(known: seq<string>, r: RunnerResult)
    ensures News(known, [r]) == if r.name in known then [] else [r]
  {
    var rest := [r][1..];
    assert rest == [];
    assert forall k :: News(k, rest) == [];
    assert [r] + [] == [r];
  }

  lemma NamesConcat(a: seq<RunnerResult>, b: seq<RunnerResult>)
    ensures Names(a + b) == Names(a) + Names(b)
    ensures |b| == 1 ==> Names(b) == [b[0].name]
  {
  }

  lemma {:induction false} WrittenConcat(tree: Tree, handle: Handle, id: Id, a: seq<RunnerResult>, b: seq<RunnerResult>)
    ensures Written(tree, handle, id, a + b) == Written(Written(tree, handle, id, a), handle, id, b)
    decreases |a|
  {
    if a == [] {
      assert a + b == b;
    } else {
      assert (a + b)[1..] == a[1..] + b;
      WrittenConcat(tree[Text(FormatKey(handle, id, a[0].name)) := Result(a[0])], handle, id, a[1..], b);
    }
  }

  lemma WrittenAppend(tree: Tree, handle: Handle, id: Id, done: seq<RunnerResult>, r: RunnerResult)
    ensures Written(tree, handle, id, done + [r]) ==
            Written(tree, handle, id, done)[Text(FormatKey(handle, id, r.name)) := Result(r)]
  {
    WrittenConcat(tree, handle, id, done, [r]);
  }

  // ---- what the watcher has reported ----

  /** The news of a list are its first occurrences: no name twice, every name once. */
  ghost predicate FirstIn(heard: seq<RunnerResult>, r: RunnerResult) {
    exists i :: 0 <= i < |heard| && heard[i] == r && forall j :: 0 <= j < i ==> heard[j].name != r.name
  }

  lemma FirstInTail(heard: seq<RunnerResult>, r: RunnerResult)
    requires heard != []
    ensures FirstIn(heard, r) <==> r == heard[0] || (r.name != heard[0].name && FirstIn(heard[1..], r))
  {
    var rest := heard[1..];
    assert forall i :: 0 <= i < |rest| ==> rest[i] == heard[i + 1];
    if FirstIn(heard, r) && r != heard[0] {
      var i :| 0 <= i < |heard| && heard[i] == r && forall j :: 0 <= j < i ==> heard[j].name != r.name;
      assert rest[i - 1] == r && forall j :: 0 <= j < i - 1 ==> rest[j].name != r.name;
    }
    if r.name != heard[0].name && FirstIn(rest, r) {
      var i :| 0 <= i < |rest| && rest[i] == r && forall j :: 0 <= j < i ==> rest[j].name != r.name;
      assert heard[i + 1] == r && forall j :: 0 <= j < i + 1 ==> heard[j].name != r.name;
    }
    if r == heard[0] {
      assert heard[0] == r;
    }
  }

  lemma {:induction false} NewsMember(known: seq<string>, heard: seq<RunnerResult>, r: RunnerResult)
    ensures r in News(known, heard) <==> r.name !in known && FirstIn(heard, r)
    decreases |heard|
  {
    if heard != [] {
      FirstInTail(heard, r);
      NewsMember(if heard[0].name in known then known else known + [heard[0].name], heard[1..], r);
    }
  }

  lemma {:induction false} NewsAreDistinct(known: seq<string>, heard: seq<RunnerResult>)
    ensures Distinct(Names(News(known, heard)))
    decreases |heard|
  {
    if heard != [] && heard[0].name in known {
      NewsAreDistinct(known, heard[1..]);
    } else if heard != [] {
      var known' := known + [heard[0].name];
      var rest := News(known', heard[1..]);
      NewsAreDistinct(known', heard[1..]);
      forall i | 0 <= i < |rest| ensures Names(rest)[i] != heard[0].name {
        NewsMember(known', heard[1..], rest[i]);
      }
      assert Names(News(known, heard)) == [heard[0].name] + Names(rest);
    }
  }

  lemma NewsAreFirst(known: seq<string>, heard: seq<RunnerResult>)
    ensures Distinct(Names(News(known, heard)))
    ensures forall r :: r in News(known, heard) <==> r.name !in known && FirstIn(heard, r)
  {
    NewsAreDistinct(known, heard);
    forall r ensures r in News(known, heard) <==> r.name !in known && FirstIn(heard, r) {
      NewsMember(known, heard, r);
    }
  }

  lemma OtherNewsOtherKeys(handle: Handle, id: Id, news: seq<RunnerResult>)
    requires SpaceFree(handle) && news != [] && Distinct(Names(news))
    ensures Distinct(Names(news[1..]))
    ensures forall r <- news[1..] :: FormatKey(handle, id, r.name) != FormatKey(handle, id, news[0].name)
  {
    var n, rest := news[0], news[1..];
    assert forall i :: 0 <= i < |rest| ==> Names(rest)[i] == Names(news)[i + 1];
    forall r | r in rest ensures FormatKey(handle, id, r.name) != FormatKey(handle, id, n.name) {
      var i :| 0 <= i < |rest| && rest[i] == r;
      assert Names(news)[i + 1] != Names(news)[0];
      KeysNeverCollide(handle, id, r.name, handle, id, n.name);
    }
  }

  lemma {:induction false} WrittenAt(tree: Tree, handle: Handle, id: Id, news: seq<RunnerResult>, key: Key)
    requires SpaceFree(handle) && Distinct(Names(news))
    ensures (forall r <- news :: key != Text(FormatKey(handle, id, r.name))) ==>
              (key in Written(tree, handle, id, news) <==> key in tree)
              && (key in tree ==> Written(tree, handle, id, news)[key] == tree[key])
    ensures forall r <- news :: key == Text(FormatKey(handle, id, r.name)) ==>
              key in Written(tree, handle, id, news) && Written(tree, handle, id, news)[key] == Result(r)
    decreases |news|
  {
    hide FormatKey, SpaceFree, Names;
    if news != [] {
      OtherNewsOtherKeys(handle, id, news);
      assert news == [news[0]] + news[1..];
      WrittenAt(tree[Text(FormatKey(handle, id, news[0].name)) := Result(news[0])], handle, id, news[1..], key);
    }
  }

  // ---- in terms of the answers ----

  /** The answers whose jobs were looked at. */
  function UsedOf(polls: seq<Poll>, end: End): (used: seq<Poll>)
    requires EndsAt(polls, end)
    ensures forall poll <- used :: poll.Some?
  {
    match end
    case AllDone(k) => AllSome(polls, k); polls[..k]
    case AskFailed(k) => AllSome(polls, k - 1); polls[..k - 1]
    case StillWaiting => AllSome(polls, |polls|); polls
  }

  lemma AllSome(polls: seq<Poll>, k: nat)
    requires k <= |polls|
    requires forall i :: 0 <= i < k ==> polls[i].Some? || !Stops(polls[i])
    ensures forall poll <- polls[..k] :: poll.Some?
  {
  }

  /** The job at place `p` of answer `i` is finished. */
  ghost predicate SeenFinished(used: seq<Poll>, i: nat, p: nat, r: RunnerResult) {
    i < |used| && used[i].Some? && p < |used[i].value| && used[i].value[p] == r && Ci.Finished(r)
  }

  /** No finished job of this name is seen before place `p` of answer `i`. */
  ghost predicate NoneBefore(used: seq<Poll>, i: nat, p: nat, name: string) {
    forall j: nat, q: nat, r :: SeenFinished(used, j, q, r) && (j < i || (j == i && q < p)) ==> r.name != name
  }

  /** This is where a finished job of its name is seen for the first time. */
  ghost predicate FirstSeen(used: seq<Poll>, i: nat, p: nat, r: RunnerResult) {
    SeenFinished(used, i, p, r) && NoneBefore(used, i, p, r.name)
  }

  /** The finished jobs of some answers, answer by answer. */
  function Gathered(used: seq<Poll>): seq<RunnerResult>
    requires forall poll <- used :: poll.Some?
  {
    if used == [] then [] else Ci.FinishedOf(used[0].value) + Gathered(used[1..])
  }

  /** As long as no answer stops the watcher, it hears them all. */
  lemma {:induction false} HeardSplit(used: seq<Poll>, rest: seq<Poll>)
    requires NoneStops(used)
    ensures forall poll <- used :: poll.Some?
    ensures Heard(used + rest) == Gathered(used) + Heard(rest)
    decreases |used|
  {
    NoStopIsSome(used);
    if used == [] {
      assert used + rest == rest;
    } else {
      assert (used + rest)[0] == used[0] && (used + rest)[1..] == used[1..] + rest && used[0] in used;
      assert forall i :: 0 <= i < |used[1..]| ==> used[1..][i] == used[i + 1];
      HeardSplit(used[1..], rest);
    }
  }

  lemma NoStopIsSome(used: seq<Poll>)
    requires NoneStops(used)
    ensures forall poll <- used :: poll.Some?
  {
  }

  lemma {:induction false} GatheredLast(used: seq<Poll>, poll: Poll)
    requires (forall p <- used :: p.Some?) && poll.Some?
    ensures forall p <- used + [poll] :: p.Some?
    ensures Gathered(used + [poll]) == Gathered(used) + Ci.FinishedOf(poll.value)
    decreases |used|
  {
    if used == [] {
      assert [poll][1..] == [] && used + [poll] == [poll];
    } else {
      assert (used + [poll])[1..] == used[1..] + [poll] && used[0] in used && forall p <- used[1..] :: p in used;
      GatheredLast(used[1..], poll);
    }
  }

  /** What a watcher hears are the finished jobs of the answers it used. */
  lemma HeardOfUsed(polls: seq<Poll>, end: End)
    requires EndsAt(polls, end)
    ensures Heard(polls) == Gathered(UsedOf(polls, end))
  {
    var k := match end case AllDone(k) => k - 1 case AskFailed(k) => k - 1 case StillWaiting => |polls|;
    var before, rest := polls[..k], polls[k..];
    assert polls == before + rest;
    HeardSplit(before, rest);
    if end.AllDone? {
      assert rest[0] == polls[k] && polls[..k + 1] == before + [polls[k]];
      GatheredLast(before, polls[k]);
    }
  }

  /** The first finished job of its name within one answer. */
  ghost predicate FirstJob(jobs: seq<RunnerResult>, p: nat, r: RunnerResult) {
    && p < |jobs| && jobs[p] == r && Ci.Finished(r)
    && forall q :: 0 <= q < p && Ci.Finished(jobs[q]) ==> jobs[q].name != r.name
  }

  lemma {:induction false} FirstOfAnswer(jobs: seq<RunnerResult>, r: RunnerResult)
    ensures FirstIn(Ci.FinishedOf(jobs), r) <==> exists p: nat :: FirstJob(jobs, p, r)
  {
    if jobs != [] {
      var rest := jobs[1..];
      FirstOfAnswer(rest, r);
      FirstJobInTail(jobs, r);
      if Ci.Finished(jobs[0]) {
        assert Ci.FinishedOf(jobs)[0] == jobs[0] && Ci.FinishedOf(jobs)[1..] == Ci.FinishedOf(rest);
        FirstInTail(Ci.FinishedOf(jobs), r);
      }
      hide FirstIn, FirstJob;
    }
  }

  lemma FirstJobInTail(jobs: seq<RunnerResult>, r: RunnerResult)
    requires jobs != []
    ensures (exists p: nat :: FirstJob(jobs, p, r)) <==>
              if Ci.Finished(jobs[0]) then
                r == jobs[0] || (r.name != jobs[0].name && exists p: nat :: FirstJob(jobs[1..], p, r))
              else exists p: nat :: FirstJob(jobs[1..], p, r)
  {
    var rest := jobs[1..];
    if p: nat :| FirstJob(rest, p, r) {
      if !Ci.Finished(jobs[0]) || jobs[0].name != r.name {
        assert FirstJob(jobs, p + 1, r);
      }
    }
    if p: nat :| FirstJob(jobs, p, r) {
      assert p > 0 ==> FirstJob(rest, p - 1, r);
    }
    if Ci.Finished(jobs[0]) {
      assert FirstJob(jobs, 0, jobs[0]);
    }
  }

  lemma FirstInConcat(a: seq<RunnerResult>, b: seq<RunnerResult>, r: RunnerResult)
    ensures FirstIn(a + b, r) <==> FirstIn(a, r) || ((forall x <- a :: x.name != r.name) && FirstIn(b, r))
  {
    var c := a + b;
    assert forall i :: 0 <= i < |a| ==> c[i] == a[i];
    assert forall i :: 0 <= i < |b| ==> c[|a| + i] == b[i];
    if FirstIn(c, r) {
      var i :| 0 <= i < |c| && c[i] == r && forall j :: 0 <= j < i ==> c[j].name != r.name;
      if i >= |a| {
        assert b[i - |a|] == r && forall j :: 0 <= j < i - |a| ==> b[j] == c[|a| + j];
        assert forall j :: 0 <= j < |a| ==> a[j] == c[j];
      }
    }
    if FirstIn(a, r) {
      var i :| 0 <= i < |a| && a[i] == r && forall j :: 0 <= j < i ==> a[j].name != r.name;
      assert c[i] == r && forall j :: 0 <= j < i ==> c[j] == a[j];
    }
    if (forall x <- a :: x.name != r.name) && FirstIn(b, r) {
      var i :| 0 <= i < |b| && b[i] == r && forall j :: 0 <= j < i ==> b[j].name != r.name;
      forall j | 0 <= j < |a| + i ensures c[j].name != r.name {
        if j < |a| {
          assert c[j] == a[j] && a[j] in a;
        } else {
          assert c[j] == b[j - |a|];
        }
      }
      assert c[|a| + i] == r;
    }
  }

  /** The first answer and the rest. */
  lemma SeenInTail(used: seq<Poll>, i: nat, p: nat, r: RunnerResult)
    requires used != []
    ensures SeenFinished(used, i + 1, p, r) <==> SeenFinished(used[1..], i, p, r)
  {
  }

  lemma FirstSeenInTail(used: seq<Poll>, r: RunnerResult)
    requires used != [] && used[0].Some?
    ensures (exists i: nat, p: nat :: FirstSeen(used, i, p, r)) <==>
              || (exists p: nat :: FirstJob(used[0].value, p, r))
              || ((forall x <- Ci.FinishedOf(used[0].value) :: x.name != r.name)
                  && exists i: nat, p: nat :: FirstSeen(used[1..], i, p, r))
  {
    var jobs, rest := used[0].value, used[1..];
    forall j: nat, q: nat, x ensures SeenFinished(used, j + 1, q, x) <==> SeenFinished(rest, j, q, x) {
      SeenInTail(used, j, q, x);
    }
    if i: nat, p: nat :| FirstSeen(used, i, p, r) {
      if i == 0 {
        FirstSeenHere(used, p, r);
      } else {
        FirstSeenLater(used, i, p, r);
      }
    }
    if p: nat :| FirstJob(jobs, p, r) {
      assert FirstSeen(used, 0, p, r);
    }
    if (forall x <- Ci.FinishedOf(jobs) :: x.name != r.name) && exists i: nat, p: nat :: FirstSeen(rest, i, p, r) {
      var i: nat, p: nat :| FirstSeen(rest, i, p, r);
      NotBefore(used, i, p, r);
    }
  }

  lemma FirstSeenHere(used: seq<Poll>, p: nat, r: RunnerResult)
    requires used != [] && used[0].Some? && FirstSeen(used, 0, p, r)
    ensures FirstJob(used[0].value, p, r)
  {
    var jobs := used[0].value;
    forall q: nat | q < p && Ci.Finished(jobs[q]) ensures jobs[q].name != r.name {
      assert SeenFinished(used, 0, q, jobs[q]);
    }
  }

  lemma FirstSeenLater(used: seq<Poll>, i: nat, p: nat, r: RunnerResult)
    requires used != [] && used[0].Some? && i > 0 && FirstSeen(used, i, p, r)
    ensures FirstSeen(used[1..], i - 1, p, r)
    ensures forall x <- Ci.FinishedOf(used[0].value) :: x.name != r.name
  {
    forall j: nat, q: nat, x | SeenFinished(used[1..], j, q, x) && (j < i - 1 || (j == i - 1 && q < p))
      ensures x.name != r.name
    {
      SeenInTail(used, j, q, x);
      assert SeenFinished(used, j + 1, q, x);
    }
    forall x | x in Ci.FinishedOf(used[0].value) ensures x.name != r.name {
      var q :| 0 <= q < |used[0].value| && used[0].value[q] == x;
      assert SeenFinished(used, 0, q, x);
    }
  }

  lemma NotBefore(used: seq<Poll>, i: nat, p: nat, r: RunnerResult)
    requires used != [] && used[0].Some? && FirstSeen(used[1..], i, p, r)
    requires forall x <- Ci.FinishedOf(used[0].value) :: x.name != r.name
    ensures FirstSeen(used, i + 1, p, r)
  {
    SeenInTail(used, i, p, r);
    forall j: nat, q: nat, x | SeenFinished(used, j, q, x) && (j < i + 1 || (j == i + 1 && q < p))
      ensures x.name != r.name
    {
      if j == 0 {
        assert x in Ci.FinishedOf(used[0].value);
      } else {
        SeenInTail(used, j - 1, q, x);
        assert SeenFinished(used[1..], j - 1, q, x);
      }
    }
  }

  /** The first finished occurrence in what was heard is the first in the answers, in their order
      and in the order of the jobs within each. */
  lemma {:induction false} FirstGathered(used: seq<Poll>, r: RunnerResult)
    requires forall poll <- used :: poll.Some?
    ensures FirstIn(Gathered(used), r) <==> exists i: nat, p: nat :: FirstSeen(used, i, p, r)
    decreases |used|
  {
    hide FirstIn, FirstSeen, FirstJob;
    if used == [] {
      NothingFirst(r);
    } else {
      assert used[0] in used && forall poll <- used[1..] :: poll in used;
      FirstOfAnswer(used[0].value, r);
      FirstGathered(used[1..], r);
      FirstInConcat(Ci.FinishedOf(used[0].value), Gathered(used[1..]), r);
      FirstSeenInTail(used, r);
    }
  }

  lemma NothingFirst(r: RunnerResult)
    ensures !FirstIn([], r) && !exists i: nat, p: nat :: FirstSeen([], i, p, r)
  {
  }

  lemma {:induction false} GatheredMember(used: seq<Poll>, r: RunnerResult)
    requires forall poll <- used :: poll.Some?
    ensures r in Gathered(used) <==> exists i: nat, p: nat :: SeenFinished(used, i, p, r)
    decreases |used|
  {
    if used != [] {
      assert used[0] in used && forall poll <- used[1..] :: poll in used;
      var jobs := used[0].value;
      GatheredMember(used[1..], r);
      if r in Ci.FinishedOf(jobs) {
        var p :| 0 <= p < |jobs| && jobs[p] == r;
        assert SeenFinished(used, 0, p, r);
      }
      if i: nat, p: nat :| SeenFinished(used[1..], i, p, r) {
        assert SeenFinished(used, i + 1, p, r);
      }
      if i: nat, p: nat :| SeenFinished(used, i, p, r) {
        assert i > 0 ==> SeenFinished(used[1..], i - 1, p, r);
      }
    }
  }

  /** What the watcher heard are exactly the finished jobs of the answers it used. */
  lemma HeardIffSeen(polls: seq<Poll>, end: End, r: RunnerResult)
    requires EndsAt(polls, end)
    ensures r in Heard(polls) <==> exists i: nat, p: nat :: SeenFinished(UsedOf(polls, end), i, p, r)
    ensures FirstIn(Heard(polls), r) <==> exists i: nat, p: nat :: FirstSeen(UsedOf(polls, end), i, p, r)
  {
    HeardOfUsed(polls, end);
    GatheredMember(UsedOf(polls, end), r);
    FirstGathered(UsedOf(polls, end), r);
  }

  /** After the watcher each name seen finished in some answer has exactly its first finished
      result in the tree, every other entry is as before, and the list of completed jobs has
      exactly those names, once each. */
  lemma DispatchHoldsFirstResults(tree: Tree, handle: Handle, id: Id, polls: seq<Poll>, end: End)
    requires SpaceFree(handle) && EndsAt(polls, end)
    ensures var used, completed := UsedOf(polls, end), Names(News([], Heard(polls)));
            var after := Written(tree, handle, id, News([], Heard(polls)));
            && Distinct(completed)
            && (forall n :: n in completed <==> SeenName(used, n))
            && (forall i: nat, p: nat, r :: FirstSeen(used, i, p, r) ==>
                  var key := Text(FormatKey(handle, id, r.name)); key in after && after[key] == Result(r))
            && (forall key :: !SeenKey(used, handle, id, key) ==>
                  (key in after <==> key in tree) && (key in tree ==> after[key] == tree[key]))
  {
    hide UsedOf, Heard, Written, FormatKey, FirstSeen, FirstIn, EndsAt;
    var used, heard := UsedOf(polls, end), Heard(polls);
    var news := News([], heard);
    var after := Written(tree, handle, id, news);
    NewsAreFirst([], heard);
    forall i: nat, p: nat, r | FirstSeen(used, i, p, r)
      ensures var key := Text(FormatKey(handle, id, r.name)); key in after && after[key] == Result(r)
    {
      HeardIffSeen(polls, end, r);
      WrittenAt(tree, handle, id, news, Text(FormatKey(handle, id, r.name)));
    }
    forall key | !SeenKey(used, handle, id, key)
      ensures (key in after <==> key in tree) && (key in tree ==> after[key] == tree[key])
    {
      forall r | r in news ensures key != Text(FormatKey(handle, id, r.name)) {
        NewsWereSeen(polls, end, r);
      }
      WrittenAt(tree, handle, id, news, key);
    }
    forall n ensures n in Names(news) <==> SeenName(used, n) {
      NamesSeen(polls, end, n);
    }
  }

  ghost predicate SeenName(used: seq<Poll>, name: string) {
    exists i: nat, p: nat, r :: SeenFinished(used, i, p, r) && r.name == name
  }

  ghost predicate SeenKey(used: seq<Poll>, handle: Handle, id: Id, key: Key) {
    exists i: nat, p: nat, r :: SeenFinished(used, i, p, r) && key == Text(FormatKey(handle, id, r.name))
  }

  lemma NewsWereSeen(polls: seq<Poll>, end: End, r: RunnerResult)
    requires EndsAt(polls, end) && r in News([], Heard(polls))
    ensures exists i: nat, p: nat :: SeenFinished(UsedOf(polls, end), i, p, r)
  {
    hide UsedOf, Heard, EndsAt;
    NewsAreFirst([], Heard(polls));
    HeardIffSeen(polls, end, r);
    assert r in Heard(polls);
  }

  /** A name is reported exactly if a finished job of that name was seen. */
  lemma NamesSeen(polls: seq<Poll>, end: End, n: string)
    requires EndsAt(polls, end)
    ensures n in Names(News([], Heard(polls))) <==> SeenName(UsedOf(polls, end), n)
  {
    hide UsedOf, Heard, EndsAt;
    var heard := Heard(polls);
    var news := News([], heard);
    if n in Names(news) {
      var i :| 0 <= i < |news| && Names(news)[i] == n;
      NewsWereSeen(polls, end, news[i]);
    }
    if i: nat, p: nat, r :| SeenFinished(UsedOf(polls, end), i, p, r) && r.name == n {
      HeardIffSeen(polls, end, r);
      var first := FirstNamed(heard, n);
      NewsAreFirst([], heard);
      var k :| 0 <= k < |news| && news[k] == first;
      assert Names(news)[k] == n;
    }
  }

  lemma {:induction false} FirstNamed(heard: seq<RunnerResult>, n: string) returns (r: RunnerResult)
    requires exists x :: x in heard && x.name == n
    ensures FirstIn(heard, r) && r.name == n
  {
    if heard[0].name == n {
      r := heard[0];
    } else {
      assert exists x :: x in heard[1..] && x.name == n;
      r := FirstNamed(heard[1..], n);
    }
    FirstInTail(heard, r);
  }

  // ---- the answers of GitHub ----

  function PollsOf(answers: seq<Option<seq<GitHub.WorkflowRun>>>): (polls: seq<Poll>)
    ensures |polls| == |answers|
  {
    if answers == [] then []
    else [if answers[0].None? then None else GitHub.Progress(answers[0].value)] + PollsOf(answers[1..])
  }

  lemma {:induction false} PollsInOrder(answers: seq<Option<seq<GitHub.WorkflowRun>>>)
    ensures |PollsOf(answers)| == |answers|
    ensures forall i :: 0 <= i < |answers| ==>
              PollsOf(answers)[i] == match answers[i] case None => None case Some(runs) => GitHub.Progress(runs)
  {
    if answers != [] {
      PollsInOrder(answers[1..]);
    }
  }

  /** An answer whose runs are all completed and readable ends the watch, and once it did each of
      their names has been reported. */
  lemma CompletedAnswerEndsWatch(answers: seq<Option<seq<GitHub.WorkflowRun>>>, k: nat, runs: seq<GitHub.WorkflowRun>)
    requires k < |answers| && answers[k] == Some(runs)
    requires forall run <- runs :: run.status == GitHub.Finished && GitHub.Classify(run).Some?
    requires forall i :: 0 <= i < k ==> !Stops(PollsOf(answers)[i])
    ensures EndsAt(PollsOf(answers), AllDone(k + 1))
    ensures forall run <- runs :: run.name in Names(News([], Heard(PollsOf(answers))))
  {
    PollsInOrder(answers);
    GitHub.CompletedRunsAreFinished(runs);
    hide PollsOf, GitHub.Progress, GitHub.Classify;
    var polls := PollsOf(answers);
    FinishedAnswerEnds(polls, k);
    forall run | run in runs ensures run.name in Names(News([], Heard(polls))) {
      var i :| 0 <= i < |runs| && runs[i] == run;
      LastAnswerReported(polls, k, i);
    }
  }

  lemma FinishedAnswerEnds(polls: seq<Poll>, k: nat)
    requires k < |polls| && polls[k].Some? && forall r <- polls[k].value :: Ci.Finished(r)
    requires forall i :: 0 <= i < k ==> !Stops(polls[i])
    ensures EndsAt(polls, AllDone(k + 1))
  {
  }

  lemma LastAnswerReported(polls: seq<Poll>, k: nat, i: nat)
    requires EndsAt(polls, AllDone(k + 1)) && i < |polls[k].value|
    ensures polls[k].value[i].name in Names(News([], Heard(polls)))
  {
    var r, used := polls[k].value[i], UsedOf(polls, AllDone(k + 1));
    assert Ci.Finished(r) && used[k] == polls[k];
    hide Heard, News, Names, EndsAt, UsedOf, Stops;
    assert SeenFinished(used, k, i, r);
    NamesSeen(polls, AllDone(k + 1), r.name);
  }

  /** The result is what a completed run amounts to: success exactly if it succeeded and nothing
      readable was annotated. */
  ghost predicate ReadFrom(run: GitHub.WorkflowRun, r: RunnerResult) {
    && GitHub.Classify(run) == Some(r)
    && run.status == GitHub.Finished
    && (r.outcome == Success <==> run.conclusion == Some(GitHub.Succeeded) && GitHub.Clean(run))
  }

  ghost predicate ReadFromAnswer(answer: Option<seq<GitHub.WorkflowRun>>, r: RunnerResult) {
    answer.Some? && exists run :: run in answer.value && ReadFrom(run, r)
  }

  /** Everything the watcher reports about GitHub runs was read from a completed run. */
  lemma {:induction false} ReportsComeFromCompletedRuns(answers: seq<Option<seq<GitHub.WorkflowRun>>>, r: RunnerResult)
    requires r in Heard(PollsOf(answers))
    ensures exists answer :: answer in answers && ReadFromAnswer(answer, r)
  {
    var polls := PollsOf(answers);
    if r in Ci.FinishedOf(polls[0].value) {
      GitHub.FinishedComesFromCompleted(answers[0].value, r);
      var run :| run in answers[0].value && GitHub.Classify(run) == Some(r) && run.status == GitHub.Finished;
      GitHub.SuccessMeansClean(run);
      assert ReadFrom(run, r) && ReadFromAnswer(answers[0], r);
    } else {
      assert polls[1..] == PollsOf(answers[1..]);
      ReportsComeFromCompletedRuns(answers[1..], r);
    }
  }
}
