/** One pass of the ingest loop and of a job watcher: each key the iterator yields is moved to the
    next tree, and a task is spawned for it. */
module Ingesting {
  import opened Basics
  import opened Codec
  import opened Database
  import opened GitWork
  import opened Watching

  // ---- the ingest loop ----

  function Encoded(ids: seq<Id>): (keys: seq<Key>)
    ensures |keys| == |ids| && forall i :: 0 <= i < |ids| ==> keys[i] == Num(ids[i])
  {
    seq(|ids|, i requires 0 <= i < |ids| => Num(ids[i]))
  }

  ghost predicate IngestDone(before: map<string, Tree>, after: map<string, Tree>, spawned: seq<Id>) {
    MovedAll(before, after, "needs testing", "awaiting git worker", Encoded(spawned))
  }

  /** The body of `ingest`'s endless loop, without the wait. `moves` is the number of moves that go
      well; an error ends the process. */
  method IngestPass(db: Db, order: seq<Id>, moves: nat) returns (spawned: seq<Id>, ok: bool)
    requires Distinct(order) && forall id <- order :: Num(id) in TreeIn(db.trees, "needs testing")
    modifies db
    ensures ok <==> moves >= |order|
    ensures spawned == order[..if moves < |order| then moves else |order|]
    ensures IngestDone(old(db.trees), db.trees, spawned)
  {
    spawned := [];
    ghost var before := db.trees;
    assert MovedAll(before, db.trees, "needs testing", "awaiting git worker", Encoded([]));
    hide MovedAll, TreeIn, Encoded, Distinct;
    for i := 0 to |order|
      invariant i <= moves && spawned == order[..i]
      invariant MovedAll(before, db.trees, "needs testing", "awaiting git worker", Encoded(order[..i]))
    {
      if i == moves {
        return spawned, false;
      }
      assert order[i] in order;
      EncodedNext(order, i);
      MovedAllNext(before, db.trees, "needs testing", "awaiting git worker", Encoded(order[..i]), Num(order[i]));
      var moved := db.MoveToNewQueue("needs testing", "awaiting git worker", Num(order[i]));
      spawned := spawned + [order[i]];
    }
    assert order[..|order|] == order;
    ok := true;
  }

  lemma EncodedNext(order: seq<Id>, i: nat)
    requires Distinct(order) && i < |order|
    ensures Num(order[i]) !in Encoded(order[..i])
    ensures order[..i + 1] == order[..i] + [order[i]]
    ensures Encoded(order[..i + 1]) == Encoded(order[..i]) + [Num(order[i])]
  {
  }

  // ---- a job watcher ----

  function Printed(ids: seq<Id>): (keys: seq<Key>)
    ensures |keys| == |ids| && forall i :: 0 <= i < |ids| ==> keys[i] == Text(Decimal(ids[i]))
  {
    seq(|ids|, i requires 0 <= i < |ids| => Text(Decimal(ids[i])))
  }

  /** `start_work` or a move can be an error, which ends the process. */
  datatype PassEnd = StartFailed | MoveFailed | Complete

  ghost predicate QueueDone(before: map<string, Tree>, after: map<string, Tree>, handle: Handle, watched: seq<Id>) {
    MovedAll(before, after, QueueTree(handle), WorkingTree(handle), Printed(watched))
  }

  /** The body of `new_job_watcher`'s endless loop, without the wait: each series is started, moved
      to the working tree, and gets a completion watcher. `starts` and `moves` are the numbers of
      calls that go well. */
  method QueuePass(db: Db, handle: Handle, order: seq<Id>, starts: nat, moves: nat)
    returns (watched: seq<Id>, end: PassEnd)
    requires Distinct(order) && forall id <- order :: Text(Decimal(id)) in TreeIn(db.trees, QueueTree(handle))
    modifies db
    ensures end.Complete? <==> starts >= |order| && moves >= |order|
    ensures end.StartFailed? <==> starts < |order| && starts <= moves
    ensures watched == order[..match end case StartFailed => starts case MoveFailed => moves case Complete => |order|]
    ensures QueueDone(old(db.trees), db.trees, handle, watched)
  {
    watched := [];
    ghost var before := db.trees;
    assert MovedAll(before, db.trees, QueueTree(handle), WorkingTree(handle), Printed([]));
    QueueIsNotWorking(handle);
    var inbound, outbound := QueueTree(handle), WorkingTree(handle);
    hide MovedAll, TreeIn, QueueTree, WorkingTree, Decimal, Printed, Distinct;
    for i := 0 to |order|
      invariant i <= starts && i <= moves && watched == order[..i]
      invariant MovedAll(before, db.trees, inbound, outbound, Printed(order[..i]))
    {
      if i == starts {
        return watched, StartFailed;
      }
      if i == moves {
        return watched, MoveFailed;
      }
      assert order[i] in order;
      PrintedNext(order, i);
      MovedAllNext(before, db.trees, inbound, outbound, Printed(order[..i]), Text(Decimal(order[i])));
      var moved := db.MoveToNewQueue(inbound, outbound, Text(Decimal(order[i])));
      watched := watched + [order[i]];
    }
    assert order[..|order|] == order;
    end := Complete;
  }

  lemma QueueIsNotWorking(handle: Handle)
    ensures QueueTree(handle) != WorkingTree(handle)
  {
    assert |QueueTree(handle)| == |handle| + 6 && |WorkingTree(handle)| == |handle| + 8;
  }

  lemma PrintedNext(order: seq<Id>, i: nat)
    requires Distinct(order) && i < |order|
    ensures Text(Decimal(order[i])) !in Printed(order[..i])
    ensures order[..i + 1] == order[..i] + [order[i]]
    ensures Printed(order[..i + 1]) == Printed(order[..i]) + [Text(Decimal(order[i]))]
  {
    hide Decimal;
    DecimalRoundTrip(order[i]);
    forall k | 0 <= k < i ensures Printed(order[..i])[k] != Text(Decimal(order[i])) {
      DecimalRoundTrip(order[k]);
      assert order[k] != order[i];
    }
  }
}
