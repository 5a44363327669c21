/** A git task as the code it is: the wait for the worker's own tree, the moves, and the loop
    over the remotes. Also the start of the runners, which fills the list of remotes. */
module GitWork {
  import opened Basics
  import opened Codec
  import opened Database

  // ---- tree names ----

  function WorkerTree(w: nat): string {
    "git worker " + Decimal(w)
  }

  function QueueTree(handle: Handle): string {
    handle + " queue"
  }

  /** No queue and no worker tree is one of the named trees of the git side, nor the other. */
  lemma NamesApart(w: nat, handle: Handle)
    ensures WorkerTree(w) != QueueTree(handle)
    ensures WorkerTree(w) != "awaiting git worker" && WorkerTree(w) != "git failures"
    ensures QueueTree(handle) != "awaiting git worker" && QueueTree(handle) != "git failures"
  {
    DecimalValue(w);
    var a, b := WorkerTree(w), QueueTree(handle);
    assert IsDigit(Decimal(w)[|Decimal(w)| - 1]) && a[|a| - 1] == Decimal(w)[|Decimal(w)| - 1];
    assert b[|b| - 1] == 'e';
    var x, y := "awaiting git worker", "git failures";
    assert x[|x| - 1] == 'r' && y[|y| - 1] == 's';
  }

  // ---- the loop over the remotes ----

  /** `QueueError`: the push went well, but the insertion into the runner's queue did not. */
  datatype PushAnswer = Pushed | NotFastForward | PushError | NoSuchRemote | QueueError

  predicate LetsItFly(answer: PushAnswer) {
    answer.Pushed? || answer.NotFastForward?
  }

  /** How many remotes are served before the first that fails. */
  function Served(answers: seq<PushAnswer>): (n: nat)
    ensures n <= |answers|
    ensures forall i :: 0 <= i < n ==> answers[i] == Pushed || answers[i] == NotFastForward
    ensures n < |answers| ==> answers[n] in {PushError, NoSuchRemote, QueueError}
  {
    if answers == [] || !LetsItFly(answers[0]) then 0 else 1 + Served(answers[1..])
  }

  /** The queues of these handles got the series, nothing else changed. */
  ghost predicate QueuedAt(before: map<string, Tree>, after: map<string, Tree>, id: Id, handles: seq<Handle>) {
    forall name :: TreeIn(after, name) ==
      if exists h <- handles :: name == QueueTree(h) then TreeIn(before, name)[Text(Decimal(id)) := New]
      else TreeIn(before, name)
  }

  /** `do_work` from the loop on: it queues the series at the runners of exactly the remotes
      before the first failing one, in key order. */
  method ServeRemotes(db: Db, id: Id, runners: seq<(string, Handle)>, answers: seq<PushAnswer>) returns (ok: bool)
    requires |answers| == |runners|
    modifies db
    ensures ok <==> forall i :: 0 <= i < |answers| ==> answers[i] == Pushed || answers[i] == NotFastForward
    ensures ok <==> Served(answers) == |runners|
    ensures QueuedAt(old(db.trees), db.trees, id, seq(Served(answers), i requires 0 <= i < |runners| => runners[i].1))
  {
    hide TreeIn;
    ghost var handles: seq<Handle> := [];
    for i := 0 to |runners|
      invariant i <= Served(answers)
      invariant handles == seq(i, k requires 0 <= k < |runners| => runners[k].1)
      invariant QueuedAt(old(db.trees), db.trees, id, handles)
    {
      if !LetsItFly(answers[i]) {
        return false;
      }
      var handle := runners[i].1;
      db.Insert(QueueTree(handle), Text(Decimal(id)), New);
      assert forall h :: h in handles + [handle] <==> h in handles || h == handle;
      handles := handles + [handle];
    }
    ok := true;
  }

  predicate Readable(items: seq<Item>) {
    forall i :: 0 <= i < |items| ==> items[i].Some?
  }

  function Handles(items: seq<Item>): seq<Handle>
    requires Readable(items)
  {
    seq(|items|, i requires 0 <= i < |items| => items[i].value.1)
  }

  /** `do_work`. `prepared` says whether everything before the list of remotes went well. */
  method DoWork(db: Db, id: Id, prepared: bool, items: seq<Item>, answers: seq<PushAnswer>)
    returns (ok: bool, ghost served: seq<Handle>)
    requires |answers| == |items|
    modifies db
    ensures ok <==>
              (prepared && Readable(items)
               && forall i :: 0 <= i < |answers| ==> answers[i] == Pushed || answers[i] == NotFastForward)
    ensures served == if prepared && Readable(items) then Handles(items)[..Served(answers)] else []
    ensures QueuedAt(old(db.trees), db.trees, id, served)
  {
    served := [];
    if !prepared {
      return false, served;
    }
    var runners := CollectStringValues(items);
    if runners.None? {
      return false, served;
    }
    ok := ServeRemotes(db, id, runners.value, answers);
    served := seq(Served(answers), i requires 0 <= i < |runners.value| => runners.value[i].1);
    assert served == Handles(items)[..Served(answers)];
  }

  // ---- the task ----

  /** `NotStarted`: the first move was an error. `Missing`: it found no key, which the database
      answers by trying forever. `GaveUp`: the last removal, or the move to "git failures", was an
      error. An error leaves the database as it was. */
  datatype TaskEnd = NotStarted | Missing | Succeeded | GitFailed | GaveUp(failed: bool)
  {
    predicate Worked() { Succeeded? || GitFailed? || GaveUp? }

    /** What `do_work` returned. */
    predicate Failed() { GitFailed? || (GaveUp? && failed) }
  }

  /** Whether the first and the last database call of a task go well. */
  datatype Calls = Calls(first: bool, last: bool)

  /** The trees after a task ran at a worker with an empty tree: its series left "awaiting git
      worker" and is in the queues of these handles. It is in "git failures" with its value if the
      work failed; if the task gave up it is still in the worker tree; otherwise it is in neither. */
  ghost predicate TaskDone(before: map<string, Tree>, after: map<string, Tree>, w: nat, id: Id, served: seq<Handle>,
                           end: TaskEnd)
    requires Num(id) in TreeIn(before, "awaiting git worker")
  {
    var value := TreeIn(before, "awaiting git worker")[Num(id)];
    && TreeIn(after, "awaiting git worker") == TreeIn(before, "awaiting git worker") - {Num(id)}
    && TreeIn(after, WorkerTree(w)) == (if end.GaveUp? then map[Num(id) := value] else map[])
    && TreeIn(after, "git failures") == (if end.GitFailed? then TreeIn(before, "git failures")[Num(id) := value]
                                         else TreeIn(before, "git failures"))
    && (forall name :: name != "awaiting git worker" && name != WorkerTree(w) && name != "git failures" ==>
          TreeIn(after, name) ==
            if exists h <- served :: name == QueueTree(h) then TreeIn(before, name)[Text(Decimal(id)) := New]
            else TreeIn(before, name))
  }

  /** How a task ends, and what it leaves. */
  ghost predicate TaskEnds(before: map<string, Tree>, after: map<string, Tree>, w: nat, id: Id, served: seq<Handle>,
                           end: TaskEnd) {
    if !end.Worked() then after == before
    else Num(id) in TreeIn(before, "awaiting git worker") && TaskDone(before, after, w, id, served, end)
  }

  /** What a task does after its wait. The work succeeds exactly if the preparation went well, the
      list of remotes can be read, and each push went through or found the branch there. */
  ghost predicate RunsTo(before: map<string, Tree>, after: map<string, Tree>, w: nat, id: Id, prepared: bool,
                         items: seq<Item>, answers: seq<PushAnswer>, calls: Calls, end: TaskEnd, served: seq<Handle>)
    requires |answers| == |items|
  {
    && (end.NotStarted? <==> !calls.first)
    && (end.Missing? <==> calls.first && Num(id) !in TreeIn(before, "awaiting git worker"))
    && (end.Worked() ==>
          && (end.GaveUp? <==> !calls.last)
          && (end == Succeeded || end == GaveUp(false) <==>
                (prepared && Readable(items)
                 && forall i :: 0 <= i < |answers| ==> answers[i] == Pushed || answers[i] == NotFastForward))
          && served == if prepared && Readable(items) then Handles(items)[..Served(answers)] else [])
    && TaskEnds(before, after, w, id, served, end)
  }

  /** The wait of `try_do_work`. Nobody else touches the worker tree, so it ends only if there was
      nothing to wait for: with a stale entry it spins through any number of wakeups. */
  method WaitForOwnTree(db: Db, w: nat, patience: nat) returns (ended: bool)
    ensures ended <==> TreeIn(db.trees, WorkerTree(w)) == map[]
  {
    var waits := 0;
    while db.Open(WorkerTree(w)) != map[]
      invariant waits <= patience
      decreases patience - waits
    {
      if waits == patience {
        return false;
      }
      waits := waits + 1;
    }
    ended := true;
  }

  /** `try_do_work` after the wait. */
  method RunTask(db: Db, id: Id, w: nat, prepared: bool, items: seq<Item>, answers: seq<PushAnswer>, calls: Calls)
    returns (end: TaskEnd, ghost served: seq<Handle>)
    requires TreeIn(db.trees, WorkerTree(w)) == map[]
    requires |answers| == |items|
    modifies db
    ensures RunsTo(old(db.trees), db.trees, w, id, prepared, items, answers, calls, end, served)
  {
    served := [];
    if !calls.first {
      return NotStarted, served;
    }
    var moved := db.MoveToNewQueue("awaiting git worker", WorkerTree(w), Num(id));
    if !moved {
      return Missing, served;
    }
    var ok;
    ok, served := DoWork(db, id, prepared, items, answers);
    ghost var worked := db.trees;
    StillAtWork(old(db.trees), worked, w, id, served);
    hide QueueTree, WorkerTree, Decimal, TreeIn, Readable, Handles, Served, Moved, QueuedAt, TaskDone;
    if !calls.last {
      end := GaveUp(!ok);
    } else if ok {
      db.Remove(WorkerTree(w), Num(id));
      end := Succeeded;
    } else {
      var failed := db.MoveToNewQueue(WorkerTree(w), "git failures", Num(id));
      end := GitFailed;
    }
    DoneAfter(old(db.trees), worked, db.trees, w, id, served, end);
  }

  /** While it works, the series is in the worker tree and its trees are as described. */
  lemma StillAtWork(before: map<string, Tree>, worked: map<string, Tree>, w: nat, id: Id, served: seq<Handle>)
    requires Num(id) in TreeIn(before, "awaiting git worker") && TreeIn(before, WorkerTree(w)) == map[]
    requires QueuedAt(Moved(before, "awaiting git worker", WorkerTree(w), Num(id)), worked, id, served)
    ensures TaskDone(before, worked, w, id, served, GaveUp(true)) &&
            TaskDone(before, worked, w, id, served, GaveUp(false))
  {
    AllNamesApart(w);
    hide QueueTree, WorkerTree, Decimal;
    MoveConserves(before, "awaiting git worker", WorkerTree(w), Num(id));
    hide TreeIn, Moved;
  }

  /** The last call on top of that. */
  lemma DoneAfter(before: map<string, Tree>, worked: map<string, Tree>, after: map<string, Tree>, w: nat, id: Id,
                  served: seq<Handle>, end: TaskEnd)
    requires Num(id) in TreeIn(before, "awaiting git worker") && TaskDone(before, worked, w, id, served, GaveUp(true))
    requires end.Worked()
    requires end.GaveUp? ==> after == worked
    requires end.Succeeded? ==> after == worked[WorkerTree(w) := TreeIn(worked, WorkerTree(w)) - {Num(id)}]
    requires end.GitFailed? ==> after == Moved(worked, WorkerTree(w), "git failures", Num(id))
    ensures TaskDone(before, after, w, id, served, end)
  {
    AllNamesApart(w);
    hide QueueTree, WorkerTree, Decimal;
    if end.GitFailed? {
      MoveConserves(worked, WorkerTree(w), "git failures", Num(id));
    }
  }

  lemma AllNamesApart(w: nat)
    ensures WorkerTree(w) != "awaiting git worker" && WorkerTree(w) != "git failures"
    ensures forall h: Handle :: QueueTree(h) != WorkerTree(w) && QueueTree(h) != "awaiting git worker"
                                && QueueTree(h) != "git failures"
  {
    forall h: Handle
      ensures QueueTree(h) != WorkerTree(w) && QueueTree(h) != "awaiting git worker" && QueueTree(h) != "git failures"
    {
      NamesApart(w, h);
    }
    NamesApart(w, "");
  }

  /** `try_do_work`: `None` while it is still waiting after `patience` wakeups. */
  method TryDoWork(db: Db, id: Id, w: nat, patience: nat, prepared: bool, items: seq<Item>, answers: seq<PushAnswer>,
                   calls: Calls)
    returns (end: Option<TaskEnd>, ghost served: seq<Handle>)
    requires |answers| == |items|
    modifies db
    ensures end.None? <==> TreeIn(old(db.trees), WorkerTree(w)) != map[]
    ensures end.None? ==> db.trees == old(db.trees)
    ensures end.Some? ==>
              RunsTo(old(db.trees), db.trees, w, id, prepared, items, answers, calls, end.value, served)
  {
    var ended := WaitForOwnTree(db, w, patience);
    if !ended {
      return None, [];
    }
    var result;
    result, served := RunTask(db, id, w, prepared, items, answers, calls);
    end := Some(result);
  }

  // ---- the start of the runners ----

  /** `runner::init` for runners triggered by a push: one remote entry per remote name, one
      runner per configuration entry, and the same handle for all of them. */
  method InitRunners(db: Db, remotes: seq<string>) returns (runners: seq<Handle>)
    modifies db
    ensures runners == seq(|remotes|, _ => "github")
    ensures forall key :: key in TreeIn(db.trees, "remotes to push to") <==>
              key in TreeIn(old(db.trees), "remotes to push to") || (key.Text? && key.text in remotes)
    ensures forall key :: key in TreeIn(db.trees, "remotes to push to") ==>
              TreeIn(db.trees, "remotes to push to")[key] ==
                if key.Text? && key.text in remotes then Word("github")
                else TreeIn(old(db.trees), "remotes to push to")[key]
    ensures forall name :: name != "remotes to push to" ==> TreeIn(db.trees, name) == TreeIn(old(db.trees), name)
  {
    hide TreeIn;
    runners := [];
    for i := 0 to |remotes|
      invariant runners == seq(i, _ => "github")
      invariant forall key :: key in TreeIn(db.trees, "remotes to push to") <==>
                  key in TreeIn(old(db.trees), "remotes to push to") || (key.Text? && key.text in remotes[..i])
      invariant forall key :: key in TreeIn(db.trees, "remotes to push to") ==>
                  TreeIn(db.trees, "remotes to push to")[key] ==
                    if key.Text? && key.text in remotes[..i] then Word("github")
                    else TreeIn(old(db.trees), "remotes to push to")[key]
      invariant forall name :: name != "remotes to push to" ==> TreeIn(db.trees, name) == TreeIn(old(db.trees), name)
    {
      assert remotes[..i + 1] == remotes[..i] + [remotes[i]];
      db.Insert("remotes to push to", Text(remotes[i]), Word("github"));
      runners := runners + ["github"];
    }
    assert remotes[..|remotes|] == remotes;
  }

  /** What an iterator over the list of remotes gives: each remote with its runner's handle. */
  ghost predicate ReadFrom(tree: Tree, items: seq<Item>) {
    && (forall i :: 0 <= i < |items| ==>
          items[i].Some? && Text(items[i].value.0) in tree && tree[Text(items[i].value.0)] == Word(items[i].value.1))
    && (forall key :: key in tree ==> exists i :: 0 <= i < |items| && items[i].Some? && key == Text(items[i].value.0))
  }

  /** A task reads from the list what the start of the runners wrote to it: from an empty list, each
      remote once, and "github" as the queue of each. */
  lemma RemotesLeadToRunners(tree: Tree, remotes: seq<string>, items: seq<Item>)
    requires forall key :: key in tree <==> key.Text? && key.text in remotes
    requires forall key :: key in tree ==> tree[key] == Word("github")
    requires ReadFrom(tree, items)
    ensures Readable(items) && Handles(items) == seq(|items|, _ => "github")
    ensures forall remote :: remote in remotes <==> exists i :: 0 <= i < |items| && items[i].value.0 == remote
  {
    forall remote | remote in remotes ensures exists i :: 0 <= i < |items| && items[i].value.0 == remote {
      assert Text(remote) in tree;
    }
  }

  /** Since all handles are the same, handles are unshared exactly with at most one of each. */
  lemma UnsharedMeansSingle(c: Config)
    requires (forall h <- c.remotes :: h == "github") && forall h <- c.runners :: h == "github"
    ensures Distinct(c.remotes) && Distinct(c.runners) <==> |c.remotes| <= 1 && |c.runners| <= 1
  {
    if |c.remotes| > 1 {
      assert c.remotes[0] in c.remotes && c.remotes[1] in c.remotes;
    }
    if |c.runners| > 1 {
      assert c.runners[0] in c.runners && c.runners[1] in c.runners;
    }
  }
}
