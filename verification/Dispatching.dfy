/** The dispatcher as the loops it is, and the server call it makes. */
module Dispatching {
  import opened Basics
  import opened Codec
  import opened Database
  import opened Outbox

  // ---- the server ----

  datatype PostAnswer = Accepted | AcceptedButLost | Refused

  /** What the network does during one send call. */
  datatype Net = Net(seriesOk: bool, checksOk: bool, post: PostAnswer)

  class Server {
    var checks: seq<Check>

    constructor ()
      ensures checks == []
    {
      checks := [];
    }

    /** `send_check`. A check is created exactly when there is a token, the series and its checks
        can be read, no check has the same sanitised context, and the post arrives; an answer
        that gets lost on the way back is an error although the check was created. */
    method SendCheck(c: Config, series: Id, context: string, r: RunnerResult, net: Net) returns (ok: bool)
      modifies this
      ensures var reached := c.token && net.seriesOk && c.patches(series) != [] && net.checksOk;
              var known := reached && Present(old(checks), LastPatch(c, series), Sanitise(context));
              && checks == old(checks) + (if reached && !known && !net.post.Refused?
                                          then [NewCheck(c, series, context, r)] else [])
              && (ok <==> !c.token || known || (reached && net.post.Accepted?))
    {
      if !c.token {
        return true;
      }
      if !net.seriesOk || c.patches(series) == [] {
        return false;
      }
      var patch := c.patches(series)[|c.patches(series)| - 1];
      var encoded := Sanitise(context);
      if !net.checksOk {
        return false;
      }
      if Present(checks, patch, encoded) {
        return true;
      }
      if !net.post.Refused? {
        checks := checks + [Check(patch, encoded, r.outcome, r.url, r.description, Snowpatch(series))];
      }
      ok := net.post.Accepted?;
    }
  }

  function LastPatch(c: Config, series: Id): nat
    requires c.patches(series) != []
  {
    c.patches(series)[|c.patches(series)| - 1]
  }

  function NewCheck(c: Config, series: Id, context: string, r: RunnerResult): Check
    requires c.patches(series) != []
  {
    Check(LastPatch(c, series), Sanitise(context), r.outcome, r.url, r.description, Snowpatch(series))
  }

  // ---- one round ----

  /** The server after the results under these keys were sent without an error. */
  function Sent(c: Config, checks: seq<Check>, tree: map<string, RunnerResult>, order: seq<string>): seq<Check>
    requires forall key <- order :: key in tree && Sendable(c, key)
    decreases |order|
  {
    if order == [] then checks
    else
      assert order[0] in order && forall key <- order[1..] :: key in order;
      Sent(c, SentOne(c, checks, order[0], tree[order[0]]), tree, order[1..])
  }

  function SentOne(c: Config, checks: seq<Check>, key: string, r: RunnerResult): seq<Check>
    requires Sendable(c, key)
  {
    if !c.token || OnServer(c, checks, key) then checks else checks + [CheckFor(c, key, r)]
  }

  /** The tree as the dispatcher reads it. */
  ghost predicate Holds(tree: Tree, results: map<string, RunnerResult>) {
    && (forall key :: key in tree ==> key.Text? && key.text in results)
    && (forall key :: key in results ==> Text(key) in tree && tree[Text(key)] == Result(results[key]))
  }

  /** However much is sent, no two checks of ours share patch and context, and none disappears. */
  lemma {:induction false} SendingKeepsPostedOnce(c: Config, checks: seq<Check>, tree: map<string, RunnerResult>,
                                                  order: seq<string>)
    requires PostedOnce(checks) && forall key <- order :: key in tree && Sendable(c, key)
    ensures PostedOnce(Sent(c, checks, tree, order)) && checks <= Sent(c, checks, tree, order)
    decreases |order|
  {
    if order != [] {
      assert order[0] in order && forall k <- order[1..] :: k in order;
      SentOneKeepsPostedOnce(c, checks, order[0], tree[order[0]]);
      hide Sendable, SentOne, PostedOnce;
      SendingKeepsPostedOnce(c, SentOne(c, checks, order[0], tree[order[0]]), tree, order[1..]);
    }
  }

  lemma SentOneKeepsPostedOnce(c: Config, checks: seq<Check>, key: string, r: RunnerResult)
    requires PostedOnce(checks) && Sendable(c, key)
    ensures PostedOnce(SentOne(c, checks, key, r)) && checks <= SentOne(c, checks, key, r)
  {
    if !OnServer(c, checks, key) {
      forall i | 0 <= i < |checks|
        ensures checks[i].patch != CheckFor(c, key, r).patch || checks[i].context != CheckFor(c, key, r).context
      {
        assert checks[i] in checks;
      }
    }
  }

  lemma {:induction false} SentAppend(c: Config, checks: seq<Check>, tree: map<string, RunnerResult>,
                                      order: seq<string>, key: string)
    requires forall k <- order :: k in tree && Sendable(c, k)
    requires key in tree && Sendable(c, key)
    ensures forall k <- order + [key] :: k in tree && Sendable(c, k)
    ensures Sent(c, checks, tree, order + [key]) == SentOne(c, Sent(c, checks, tree, order), key, tree[key])
    decreases |order|
  {
    hide Sendable, SentOne;
    if order == [] {
      assert Sent(c, SentOne(c, checks, key, tree[key]), tree, [key][1..]) == SentOne(c, checks, key, tree[key]);
      assert order + [key] == [key];
    } else {
      assert order[0] in order && forall k <- order[1..] :: k in order;
      assert (order + [key])[1..] == order[1..] + [key];
      SentAppend(c, SentOne(c, checks, order[0], tree[order[0]]), tree, order[1..], key);
    }
  }

  /** The send call for this key returns without an error. */
  predicate SendsWell(c: Config, checks: seq<Check>, key: string, net: Net) {
    && ParseKey(key).Some?
    && (c.token ==>
        net.seriesOk && Sendable(c, key) && net.checksOk && (OnServer(c, checks, key) || net.post.Accepted?))
  }

  /** The body of the first loop: read one key and send its result. */
  method SendResult(server: Server, c: Config, key: string, value: RunnerResult, net: Net) returns (ok: bool)
    modifies server
    ensures ok <==> SendsWell(c, old(server.checks), key, net)
    ensures !c.token ==> (ok <==> ParseKey(key) != None) && server.checks == old(server.checks)
    ensures c.token && Sendable(c, key) && net.seriesOk && net.checksOk ==>
              (ok <==> OnServer(c, old(server.checks), key) || net.post == Accepted)
    ensures c.token && !(Sendable(c, key) && net.seriesOk && net.checksOk) ==>
              !ok && server.checks == old(server.checks)
    ensures ok && c.token ==> Sendable(c, key) && server.checks == SentOne(c, old(server.checks), key, value)
    ensures server.checks == old(server.checks)
            || (c.token && Sendable(c, key) && server.checks == SentOne(c, old(server.checks), key, value))
  {
    hide ParseKey, Sanitise;
    match ParseKey(key)
    case None => ok := false;
    case Some(q) => ok := server.SendCheck(c, q.series, q.handle + "-" + q.name, value, net);
  }

  /** The first `i` keys of the order can be sent, and this is what the server then has. */
  ghost predicate SentUpTo(c: Config, checks: seq<Check>, results: map<string, RunnerResult>, order: seq<string>,
                           i: nat, after: seq<Check>) {
    && i <= |order|
    && (forall key <- order[..i] :: key in results)
    && if !c.token then after == checks
       else (forall key <- order[..i] :: Sendable(c, key)) && after == Sent(c, checks, results, order[..i])
  }

  /** With the first `i` keys sent, so is the next. */
  ghost predicate GoesWell(c: Config, checks: seq<Check>, results: map<string, RunnerResult>, order: seq<string>,
                           nets: seq<Net>, i: nat)
    requires i < |order| == |nets|
  {
    exists now :: SentUpTo(c, checks, results, order, i, now) && SendsWell(c, now, order[i], nets[i])
  }

  /** The first `n` keys go well, each after those before it. */
  ghost predicate AllGoWell(c: Config, checks: seq<Check>, results: map<string, RunnerResult>, order: seq<string>,
                            nets: seq<Net>, n: nat)
    requires n <= |order| == |nets|
  {
    forall i :: 0 <= i < n ==> GoesWell(c, checks, results, order, nets, i)
  }

  lemma AllGoWellNext(c: Config, checks: seq<Check>, results: map<string, RunnerResult>, order: seq<string>,
                      nets: seq<Net>, n: nat)
    requires n < |order| == |nets|
    requires AllGoWell(c, checks, results, order, nets, n) && GoesWell(c, checks, results, order, nets, n)
    ensures AllGoWell(c, checks, results, order, nets, n + 1)
  {
    hide GoesWell;
  }

  lemma NothingSent(c: Config, checks: seq<Check>, results: map<string, RunnerResult>, order: seq<string>)
    ensures SentUpTo(c, checks, results, order, 0, checks)
  {
  }

  lemma SentUpToNext(c: Config, checks: seq<Check>, results: map<string, RunnerResult>, order: seq<string>, i: nat,
                     now: seq<Check>, next: seq<Check>)
    requires i < |order| && order[i] in results && SentUpTo(c, checks, results, order, i, now)
    requires if c.token then Sendable(c, order[i]) && next == SentOne(c, now, order[i], results[order[i]])
             else next == now
    ensures SentUpTo(c, checks, results, order, i + 1, next)
  {
    hide Sendable, SentOne, Sent;
    assert order[..i + 1] == order[..i] + [order[i]];
    if c.token {
      SentAppend(c, checks, results, order[..i], order[i]);
    }
  }

  // ---- a round while the watchers go on ----

  /** What the completion watchers inserted at one point of a round. */
  type Arrivals = map<string, RunnerResult>

  function Encoded(arrivals: Arrivals): Tree {
    map key | key in (set k <- arrivals :: Text(k)) :: Result(arrivals[key.text])
  }

  /** The watchers run. */
  method LetIn(db: Db, arrivals: Arrivals, ghost results: map<string, RunnerResult>)
    requires Holds(TreeIn(db.trees, "needs dispatch"), results)
    modifies db
    ensures Holds(TreeIn(db.trees, "needs dispatch"), results + arrivals)
    ensures forall name :: name != "needs dispatch" ==> TreeIn(db.trees, name) == TreeIn(old(db.trees), name)
  {
    LetInHolds(db.Open("needs dispatch"), results, arrivals);
    hide Holds, Encoded;
    db.trees := db.trees["needs dispatch" := db.Open("needs dispatch") + Encoded(arrivals)];
  }

  lemma LetInHolds(tree: Tree, results: map<string, RunnerResult>, arrivals: Arrivals)
    requires Holds(tree, results)
    ensures Holds(tree + Encoded(arrivals), results + arrivals)
  {
    var all := Encoded(arrivals);
    assert forall k :: k in arrivals ==> Text(k) in all;
  }

  /** The tree after the first `n` of these insertions. */
  function Grown(results: map<string, RunnerResult>, late: seq<Arrivals>, n: nat): map<string, RunnerResult>
    requires n <= |late|
  {
    if n == 0 then results else Grown(results, late, n - 1) + late[n - 1]
  }

  /** Insertions come in before each key of the first loop and before each removal of the second.
      An iterator yields each key that was there from the beginning, and only keys that are there
      when it yields them; keys that came in meanwhile it may yield or not. */
  ghost predicate Yields(results: map<string, RunnerResult>, late: seq<Arrivals>, order: seq<string>) {
    && Distinct(order) && |late| == 2 * |order|
    && (forall key :: key in results ==> key in order)
    && (forall i :: 0 <= i < |order| ==> order[i] in Grown(results, late, i + 1))
  }

  /** Each key of the order with the value it had when it was yielded. */
  ghost function Visited(results: map<string, RunnerResult>, late: seq<Arrivals>, order: seq<string>,
                         n: nat): map<string, RunnerResult>
    requires Yields(results, late, order) && n <= |order|
  {
    if n == 0 then map[] else
      Visited(results, late, order, n - 1)[order[n - 1] := Grown(results, late, n)[order[n - 1]]]
  }

  lemma {:induction false} VisitedAt(results: map<string, RunnerResult>, late: seq<Arrivals>, order: seq<string>,
                                     n: nat, i: nat)
    requires Yields(results, late, order) && i < n <= |order|
    ensures order[i] in Visited(results, late, order, n)
    ensures Visited(results, late, order, n)[order[i]] == Grown(results, late, i + 1)[order[i]]
  {
    assert order[..n][i] == order[i];
    if i < n - 1 {
      VisitedAt(results, late, order, n - 1, i);
      assert order[i] != order[n - 1];
    }
  }

  /** The tree after the first `n` removals, and what came in before each of them. */
  function Shrunk(results: map<string, RunnerResult>, late: seq<Arrivals>, order: seq<string>, n: nat)
    : map<string, RunnerResult>
    requires |late| == 2 * |order| && n <= |order|
  {
    if n == 0 then Grown(results, late, |order|)
    else Shrunk(results, late, order, n - 1) + late[|order| + n - 1] - {order[n - 1]}
  }

  lemma NothingShrunk(results: map<string, RunnerResult>, late: seq<Arrivals>, order: seq<string>)
    requires |late| == 2 * |order|
    ensures Shrunk(results, late, order, 0) == Grown(results, late, |order|)
  {
  }

  lemma ShrunkNext(results: map<string, RunnerResult>, late: seq<Arrivals>, order: seq<string>, n: nat)
    requires |late| == 2 * |order| && n < |order|
    ensures Shrunk(results, late, order, n + 1) == Shrunk(results, late, order, n) + late[|order| + n] - {order[n]}
  {
  }

  /** Removals take exactly the keys that were yielded: any other key is as all insertions left it. */
  lemma {:induction false} OtherKeysStay(results: map<string, RunnerResult>, late: seq<Arrivals>, order: seq<string>,
                                         n: nat, key: string)
    requires |late| == 2 * |order| && n <= |order| && key !in order[..n]
    ensures var after, all := Shrunk(results, late, order, n), Grown(results, late, |order| + n);
            (key in after <==> key in all) && (key in all ==> after[key] == all[key])
  {
    if n > 0 {
      assert order[..n] == order[..n - 1] + [order[n - 1]];
      OtherKeysStay(results, late, order, n - 1, key);
    }
  }

  /** The `i`-th key came in again before the `j`-th removal, after its own. */
  predicate CameAgain(late: seq<Arrivals>, order: seq<string>, i: nat, j: nat)
    requires |late| == 2 * |order|
  {
    i < j < |order| && order[i] in late[|order| + j]
  }

  /** And a yielded key is gone unless it came in again after its removal. */
  lemma {:induction false} YieldedKeysGo(results: map<string, RunnerResult>, late: seq<Arrivals>, order: seq<string>,
                                         n: nat, i: nat)
    requires |late| == 2 * |order| && i < n <= |order|
    ensures order[i] in Shrunk(results, late, order, n) ==> exists j: nat :: j < n && CameAgain(late, order, i, j)
  {
    if i < n - 1 {
      YieldedKeysGo(results, late, order, n - 1, i);
      assert order[i] in late[|order| + n - 1] ==> CameAgain(late, order, i, n - 1);
    }
  }

  /** A round ends with an error at a send or at a removal, or with all keys removed. */
  datatype RoundEnd = AtSend(n: nat) | AtRemoval(n: nat) | Complete

  /** The trees and the server after a round. */
  ghost predicate RoundDone(c: Config, trees: map<string, Tree>, trees': map<string, Tree>,
                            checks: seq<Check>, checks': seq<Check>,
                            results: map<string, RunnerResult>, late: seq<Arrivals>, order: seq<string>,
                            end: RoundEnd)
    requires Yields(results, late, order)
  {
    var seen, tree := Visited(results, late, order, |order|), TreeIn(trees', "needs dispatch");
    && (forall name :: name != "needs dispatch" ==> TreeIn(trees', name) == TreeIn(trees, name))
    && match end
       case AtSend(n) =>
         && n < |order| && Holds(tree, Grown(results, late, n + 1))
         && (SentUpTo(c, checks, seen, order, n, checks') || SentUpTo(c, checks, seen, order, n + 1, checks'))
       case AtRemoval(n) =>
         && n < |order| && Holds(tree, Shrunk(results, late, order, n) + late[|order| + n])
         && SentUpTo(c, checks, seen, order, |order|, checks')
       case Complete =>
         && Holds(tree, Shrunk(results, late, order, |order|))
         && SentUpTo(c, checks, seen, order, |order|, checks')
  }

  lemma DroppedHolds(tree: Tree, results: map<string, RunnerResult>, key: string)
    requires Holds(tree, results)
    ensures Holds(tree - {Text(key)}, results - {key})
  {
  }

  /** The second loop removed this many keys. */
  ghost predicate Dropped(trees: map<string, Tree>, trees': map<string, Tree>, results: map<string, RunnerResult>,
                          late: seq<Arrivals>, order: seq<string>, n: nat)
    requires |late| == 2 * |order| && n <= |order|
  {
    && Holds(TreeIn(trees', "needs dispatch"),
             Shrunk(results, late, order, n) + if n < |order| then late[|order| + n] else map[])
    && forall name :: name != "needs dispatch" ==> TreeIn(trees', name) == TreeIn(trees, name)
  }

  ghost predicate ShrunkTo(trees: map<string, Tree>, trees': map<string, Tree>, results: map<string, RunnerResult>,
                           late: seq<Arrivals>, order: seq<string>, n: nat)
    requires |late| == 2 * |order| && n <= |order|
  {
    && Holds(TreeIn(trees', "needs dispatch"), Shrunk(results, late, order, n))
    && forall name :: name != "needs dispatch" ==> TreeIn(trees', name) == TreeIn(trees, name)
  }

  lemma AllDropped(trees: map<string, Tree>, trees': map<string, Tree>, results: map<string, RunnerResult>,
                   late: seq<Arrivals>, order: seq<string>)
    requires |late| == 2 * |order| && ShrunkTo(trees, trees', results, late, order, |order|)
    ensures Dropped(trees, trees', results, late, order, |order|)
  {
    hide TreeIn, Holds, Shrunk;
    assert Shrunk(results, late, order, |order|) + map[] == Shrunk(results, late, order, |order|);
  }

  /** One removal, and what comes in before it. */
  method DropNext(db: Db, order: seq<string>, late: seq<Arrivals>, n: nat, well: bool,
                  ghost results: map<string, RunnerResult>, ghost trees: map<string, Tree>)
    returns (done: bool)
    requires |late| == 2 * |order| && n < |order| && ShrunkTo(trees, db.trees, results, late, order, n)
    modifies db
    ensures done == well
    ensures if done then ShrunkTo(trees, db.trees, results, late, order, n + 1)
            else Dropped(trees, db.trees, results, late, order, n)
  {
    ShrunkNext(results, late, order, n);
    hide TreeIn, Holds, Shrunk;
    LetIn(db, late[|order| + n], Shrunk(results, late, order, n));
    if well {
      DroppedHolds(TreeIn(db.trees, "needs dispatch"), Shrunk(results, late, order, n) + late[|order| + n], order[n]);
      db.Remove("needs dispatch", Text(order[n]));
    }
    done := well;
  }

  /** The second loop: the deferred removal. An error, here after `removals` keys, leaves the rest. */
  method DropKeys(db: Db, order: seq<string>, late: seq<Arrivals>, removals: nat,
                  ghost results: map<string, RunnerResult>)
    returns (n: nat)
    requires |late| == 2 * |order| && Holds(TreeIn(db.trees, "needs dispatch"), Grown(results, late, |order|))
    modifies db
    ensures n == if removals < |order| then removals else |order|
    ensures Dropped(old(db.trees), db.trees, results, late, order, n)
  {
    NothingShrunk(results, late, order);
    ghost var trees := db.trees;
    n := 0;
    assert ShrunkTo(trees, db.trees, results, late, order, 0);
    hide ShrunkTo, Dropped, Shrunk, Grown, TreeIn, Holds;
    while n < |order|
      invariant n <= |order| && n <= removals
      invariant ShrunkTo(trees, db.trees, results, late, order, n)
    {
      var done := DropNext(db, order, late, n, n < removals, results, trees);
      if !done {
        return;
      }
      n := n + 1;
    }
    AllDropped(trees, db.trees, results, late, order);
  }

  lemma NothingGrown(results: map<string, RunnerResult>, late: seq<Arrivals>)
    ensures Grown(results, late, 0) == results
  {
  }

  lemma YieldedAt(results: map<string, RunnerResult>, late: seq<Arrivals>, order: seq<string>, i: nat)
    requires Yields(results, late, order) && i < |order|
    ensures Grown(results, late, i + 1) == Grown(results, late, i) + late[i]
    ensures order[i] in Grown(results, late, i + 1)
  {
  }

  lemma HeldAt(tree: Tree, results: map<string, RunnerResult>, key: string)
    requires Holds(tree, results) && key in results
    ensures Text(key) in tree && tree[Text(key)] == Result(results[key])
  {
  }

  /** The first `i` keys of a pass went well, and this is what they left. */
  ghost predicate PassedTo(c: Config, trees: map<string, Tree>, trees': map<string, Tree>, checks: seq<Check>,
                           checks': seq<Check>,
                           results: map<string, RunnerResult>, late: seq<Arrivals>, order: seq<string>,
                           nets: seq<Net>, i: nat)
    requires Yields(results, late, order) && i <= |order| == |nets|
  {
    var seen := Visited(results, late, order, |order|);
    && Holds(TreeIn(trees', "needs dispatch"), Grown(results, late, i))
    && (forall name :: name != "needs dispatch" ==> TreeIn(trees', name) == TreeIn(trees, name))
    && SentUpTo(c, checks, seen, order, i, checks')
    && AllGoWell(c, checks, seen, order, nets, i)
  }

  /** The pass failed at the `i`-th key. */
  ghost predicate FailedAt(c: Config, trees: map<string, Tree>, trees': map<string, Tree>, checks: seq<Check>,
                           checks': seq<Check>,
                           results: map<string, RunnerResult>, late: seq<Arrivals>, order: seq<string>,
                           nets: seq<Net>, i: nat)
    requires Yields(results, late, order) && i < |order| == |nets|
  {
    var seen := Visited(results, late, order, |order|);
    && Holds(TreeIn(trees', "needs dispatch"), Grown(results, late, i + 1))
    && (forall name :: name != "needs dispatch" ==> TreeIn(trees', name) == TreeIn(trees, name))
    && (SentUpTo(c, checks, seen, order, i, checks') || SentUpTo(c, checks, seen, order, i + 1, checks'))
    && AllGoWell(c, checks, seen, order, nets, i) && !GoesWell(c, checks, seen, order, nets, i)
  }

  /** The `i`-th key of a pass, and what comes in before it. */
  method SendNext(db: Db, server: Server, c: Config, order: seq<string>, i: nat,
                  ghost results: map<string, RunnerResult>, late: seq<Arrivals>, nets: seq<Net>,
                  ghost trees: map<string, Tree>, ghost checks: seq<Check>)
    returns (done: bool)
    requires Yields(results, late, order) && i < |order| == |nets|
    requires PassedTo(c, trees, db.trees, checks, server.checks, results, late, order, nets, i)
    modifies db, server
    ensures done ==> PassedTo(c, trees, db.trees, checks, server.checks, results, late, order, nets, i + 1)
    ensures !done ==> FailedAt(c, trees, db.trees, checks, server.checks, results, late, order, nets, i)
  {
    YieldedAt(results, late, order, i);
    VisitedAt(results, late, order, |order|, i);
    ghost var seen := Visited(results, late, order, |order|);
    hide Visited, Encoded, Holds, TreeIn, Grown, Yields, AllGoWell, ParseKey, Sendable, SentOne, Sent, SendsWell;
    LetIn(db, late[i], Grown(results, late, i));
    HeldAt(db.Open("needs dispatch"), Grown(results, late, i + 1), order[i]);
    var value := db.Open("needs dispatch")[Text(order[i])].result;
    ghost var now := server.checks;
    done := SendResult(server, c, order[i], value, nets[i]);
    if done || server.checks != now {
      SentUpToNext(c, checks, seen, order, i, now, server.checks);
    }
    if done {
      AllGoWellNext(c, checks, seen, order, nets, i);
    }
  }

  lemma PassBegins(c: Config, trees: map<string, Tree>, checks: seq<Check>, results: map<string, RunnerResult>,
                   late: seq<Arrivals>,
                   order: seq<string>, nets: seq<Net>)
    requires Yields(results, late, order) && |nets| == |order| && Holds(TreeIn(trees, "needs dispatch"), results)
    ensures PassedTo(c, trees, trees, checks, checks, results, late, order, nets, 0)
  {
    NothingGrown(results, late);
    NothingSent(c, checks, Visited(results, late, order, |order|), order);
  }

  /** The round ends at the first send that does not go well, or at the removal that does not. */
  ghost predicate EndsWhere(c: Config, checks: seq<Check>, seen: map<string, RunnerResult>, order: seq<string>,
                            nets: seq<Net>, removals: nat, end: RoundEnd)
    requires |nets| == |order|
  {
    match end
    case AtSend(n) =>
      n < |order| && AllGoWell(c, checks, seen, order, nets, n) && !GoesWell(c, checks, seen, order, nets, n)
    case AtRemoval(n) => n == removals < |order| && AllGoWell(c, checks, seen, order, nets, |order|)
    case Complete => removals >= |order| && AllGoWell(c, checks, seen, order, nets, |order|)
  }

  /** One pass of `wait_and_send` over the keys the iterator yields, with insertions before each
      key and before each removal. Every send call goes well up to the one it fails at, if any; then
      every key is still in the tree, those already sent included, and the server has the checks of
      the keys before, and possibly that of the failing call. An error of a removal leaves the keys
      not yet removed, with all checks on the server. */
  method Round(db: Db, server: Server, c: Config, order: seq<string>, ghost results: map<string, RunnerResult>,
               late: seq<Arrivals>, nets: seq<Net>, removals: nat)
    returns (end: RoundEnd)
    requires Holds(TreeIn(db.trees, "needs dispatch"), results)
    requires Yields(results, late, order) && |nets| == |order|
    modifies db, server
    ensures EndsWhere(c, old(server.checks), Visited(results, late, order, |order|), order, nets, removals, end)
    ensures RoundDone(c, old(db.trees), db.trees, old(server.checks), server.checks, results, late, order, end)
  {
    assert |late| == 2 * |order|;
    hide PassedTo, FailedAt, RoundDone, EndsWhere, Visited, TreeIn, Holds, Yields, Grown, Shrunk, Dropped;
    ghost var trees, checks := db.trees, server.checks;
    var n, drop := SendPass(db, server, c, order, results, late, nets);
    if n < |order| {
      FailedIsDone(c, trees, db.trees, checks, server.checks, results, late, order, nets, removals, n);
      return AtSend(n);
    }
    assert drop == order;
    ghost var passed := db.trees;
    PassedHolds(c, trees, passed, checks, server.checks, results, late, order, nets);
    var m := DropKeys(db, drop, late, removals, results);
    end := if m < |order| then AtRemoval(m) else Complete;
    DroppedIsDone(c, trees, passed, db.trees, checks, server.checks, results, late, order, nets, removals, m);
  }

  /** The first loop. */
  method SendPass(db: Db, server: Server, c: Config, order: seq<string>, ghost results: map<string, RunnerResult>,
                  late: seq<Arrivals>, nets: seq<Net>)
    returns (n: nat, drop: seq<string>)
    requires Holds(TreeIn(db.trees, "needs dispatch"), results)
    requires Yields(results, late, order) && |nets| == |order|
    modifies db, server
    ensures n <= |order| && drop == order[..n]
    ensures if n < |order|
            then FailedAt(c, old(db.trees), db.trees, old(server.checks), server.checks, results, late, order, nets, n)
            else PassedTo(c, old(db.trees), db.trees, old(server.checks), server.checks, results, late, order, nets, n)
  {
    PassBegins(c, db.trees, server.checks, results, late, order, nets);
    ghost var trees, checks := db.trees, server.checks;
    n, drop := 0, [];
    hide PassedTo, FailedAt, Yields;
    while n < |order|
      invariant n <= |order| && drop == order[..n]
      invariant PassedTo(c, trees, db.trees, checks, server.checks, results, late, order, nets, n)
    {
      var done := SendNext(db, server, c, order, n, results, late, nets, trees, checks);
      if !done {
        return;
      }
      assert order[..n + 1] == order[..n] + [order[n]];
      drop := drop + [order[n]];
      n := n + 1;
    }
  }

  lemma PassedHolds(c: Config, trees: map<string, Tree>, trees': map<string, Tree>, checks: seq<Check>,
                    checks': seq<Check>, results: map<string, RunnerResult>, late: seq<Arrivals>, order: seq<string>,
                    nets: seq<Net>)
    requires Yields(results, late, order) && |order| == |nets|
    requires PassedTo(c, trees, trees', checks, checks', results, late, order, nets, |order|)
    ensures |late| == 2 * |order| && Holds(TreeIn(trees', "needs dispatch"), Grown(results, late, |order|))
  {
  }

  /** All keys were sent, and the first `n` removed. */
  lemma DroppedIsDone(c: Config, trees: map<string, Tree>, passed: map<string, Tree>, trees': map<string, Tree>,
                      checks: seq<Check>, checks': seq<Check>, results: map<string, RunnerResult>, late: seq<Arrivals>,
                      order: seq<string>, nets: seq<Net>, removals: nat, n: nat)
    requires Yields(results, late, order) && |nets| == |order|
    requires n == if removals < |order| then removals else |order|
    requires PassedTo(c, trees, passed, checks, checks', results, late, order, nets, |order|)
    requires Dropped(passed, trees', results, late, order, n)
    ensures EndsWhere(c, checks, Visited(results, late, order, |order|), order, nets, removals,
                      if n < |order| then AtRemoval(n) else Complete)
    ensures RoundDone(c, trees, trees', checks, checks', results, late, order,
                      if n < |order| then AtRemoval(n) else Complete)
  {
    hide Holds, TreeIn, GoesWell, AllGoWell, SentUpTo, Grown, Visited;
    assert Shrunk(results, late, order, |order|) + map[] == Shrunk(results, late, order, |order|);
  }

  lemma FailedIsDone(c: Config, trees: map<string, Tree>, trees': map<string, Tree>, checks: seq<Check>,
                     checks': seq<Check>,
                     results: map<string, RunnerResult>, late: seq<Arrivals>, order: seq<string>,
                     nets: seq<Net>, removals: nat, i: nat)
    requires Yields(results, late, order) && i < |order| == |nets|
    requires FailedAt(c, trees, trees', checks, checks', results, late, order, nets, i)
    ensures EndsWhere(c, checks, Visited(results, late, order, |order|), order, nets, removals, AtSend(i))
    ensures RoundDone(c, trees, trees', checks, checks', results, late, order, AtSend(i))
  {
    hide Holds, TreeIn, GoesWell, AllGoWell, SentUpTo, Grown, Visited, Shrunk;
  }

  // ---- when a round comes to its end ----

  /** Nothing stands in the way of this send: without a token any key that can be read; with one a
      key of a series with patches, an answer about the series and its checks, and a post that is
      accepted unless the check is there already. */
  ghost predicate NothingInTheWay(c: Config, key: string, net: Net) {
    if !c.token then ParseKey(key) != None
    else
      match ParseKey(key)
      case None => false
      case Some(q) => c.patches(q.series) != [] && net.seriesOk && net.checksOk && net.post == Accepted
  }

  /** A round in whose way nothing stands comes to its end, whatever the server has. */
  lemma GoodRoundCompletes(c: Config, checks: seq<Check>, seen: map<string, RunnerResult>, order: seq<string>,
                           nets: seq<Net>, removals: nat, end: RoundEnd)
    requires |nets| == |order| <= removals && (forall key <- order :: key in seen)
    requires forall i :: 0 <= i < |order| ==> NothingInTheWay(c, order[i], nets[i])
    requires EndsWhere(c, checks, seen, order, nets, removals, end)
    ensures end == Complete
  {
    if end.AtSend? {
      NextGoesWell(c, checks, seen, order, nets, end.n);
    }
  }

  lemma NextGoesWell(c: Config, checks: seq<Check>, seen: map<string, RunnerResult>, order: seq<string>,
                     nets: seq<Net>, n: nat)
    requires n < |order| == |nets| && forall key <- order :: key in seen
    requires forall i :: 0 <= i < |order| ==> NothingInTheWay(c, order[i], nets[i])
    ensures GoesWell(c, checks, seen, order, nets, n)
  {
    forall key | key in order[..n] ensures key in seen && (c.token ==> Sendable(c, key)) {
      var i :| 0 <= i < n && order[i] == key;
      assert NothingInTheWay(c, order[i], nets[i]);
    }
    var now := if c.token then Sent(c, checks, seen, order[..n]) else checks;
    assert NothingInTheWay(c, order[n], nets[n]);
    assert SentUpTo(c, checks, seen, order, n, now);
    hide Sent;
  }

  /** With a token it can also do without the acceptance where the check is there already, and what
      is missing otherwise is exactly what stops it. */
  lemma StopsAtFirstObstacle(c: Config, checks: seq<Check>, key: string, net: Net)
    ensures SendsWell(c, checks, key, net) <==>
              NothingInTheWay(c, key, net)
              || (c.token && net.seriesOk && net.checksOk && Sendable(c, key) && OnServer(c, checks, key))
  {
  }

  function Quiet(n: nat): (late: seq<Arrivals>)
    ensures |late| == 2 * n
  {
    seq(2 * n, _ => map[])
  }

  /** When nothing comes in meanwhile, an iterator yields the keys that are there in some order, the
      values sent are those in the tree, and a round that comes to its end leaves the tree empty. */
  lemma QuietRound(results: map<string, RunnerResult>, order: seq<string>)
    requires Distinct(order) && forall key :: key in order <==> key in results
    ensures Yields(results, Quiet(|order|), order)
    ensures Visited(results, Quiet(|order|), order, |order|) == results
    ensures Shrunk(results, Quiet(|order|), order, |order|) == map[]
  {
    QuietYields(results, order);
    QuietVisits(results, order);
    QuietEmpties(results, order);
  }

  lemma QuietYields(results: map<string, RunnerResult>, order: seq<string>)
    requires Distinct(order) && forall key :: key in order <==> key in results
    ensures Yields(results, Quiet(|order|), order)
  {
    forall i | 0 <= i < |order| ensures order[i] in Grown(results, Quiet(|order|), i + 1) {
      NothingComesIn(results, |order|, i + 1);
      assert order[i] in order;
    }
  }

  lemma QuietVisits(results: map<string, RunnerResult>, order: seq<string>)
    requires Yields(results, Quiet(|order|), order) && forall key :: key in order <==> key in results
    ensures Visited(results, Quiet(|order|), order, |order|) == results
  {
    var seen := Visited(results, Quiet(|order|), order, |order|);
    VisitedKeys(results, Quiet(|order|), order, |order|);
    hide Yields, Visited, Quiet;
    forall key | key in results ensures key in seen && seen[key] == results[key] {
      QuietVisit(results, order, key);
    }
  }

  lemma QuietVisit(results: map<string, RunnerResult>, order: seq<string>, key: string)
    requires Yields(results, Quiet(|order|), order) && key in results && key in order
    ensures var seen := Visited(results, Quiet(|order|), order, |order|);
            key in seen && seen[key] == results[key]
  {
    hide Yields, Visited, Quiet, Grown;
    var i :| 0 <= i < |order| && order[i] == key;
    VisitedAt(results, Quiet(|order|), order, |order|, i);
    NothingComesIn(results, |order|, i + 1);
  }

  lemma QuietEmpties(results: map<string, RunnerResult>, order: seq<string>)
    requires forall key :: key in order <==> key in results
    ensures Shrunk(results, Quiet(|order|), order, |order|) == map[]
  {
    var after := Shrunk(results, Quiet(|order|), order, |order|);
    NothingComesIn(results, |order|, 2 * |order|);
    forall j: nat, i: nat ensures !CameAgain(Quiet(|order|), order, i, j) {}
    hide Shrunk, Grown, Quiet, CameAgain;
    forall key ensures key !in after {
      if i: nat :| i < |order| && order[i] == key {
        YieldedKeysGo(results, Quiet(|order|), order, |order|, i);
      } else {
        OtherKeysStay(results, Quiet(|order|), order, |order|, key);
      }
    }
  }

  lemma {:induction false} NothingComesIn(results: map<string, RunnerResult>, k: nat, n: nat)
    requires n <= 2 * k
    ensures Grown(results, Quiet(k), n) == results
  {
    if n > 0 {
      NothingComesIn(results, k, n - 1);
      assert results + map[] == results;
    }
  }

  lemma {:induction false} VisitedKeys(results: map<string, RunnerResult>, late: seq<Arrivals>, order: seq<string>,
                                       n: nat)
    requires Yields(results, late, order) && n <= |order|
    ensures forall key :: key in Visited(results, late, order, n) <==> key in order[..n]
    ensures n == |order| ==> order[..n] == order
  {
    if n > 0 {
      VisitedKeys(results, late, order, n - 1);
      assert order[..n] == order[..n - 1] + [order[n - 1]];
    }
  }

  // ---- what gets suppressed ----

  /** The context before it is sanitised. */
  function RawContext(key: string): string
    requires ParseKey(key).Some?
  {
    ParseKey(key).value.handle + "-" + ParseKey(key).value.name
  }

  function PatchOf(c: Config, key: string): nat
    requires Sendable(c, key)
  {
    LastPatch(c, ParseKey(key).value.series)
  }

  ghost predicate Clash(c: Config, a: string, b: string)
    requires Sendable(c, a) && Sendable(c, b)
  {
    PatchOf(c, a) == PatchOf(c, b) && SameOnServer(RawContext(a), RawContext(b))
  }

  lemma SentOneAddsClashing(c: Config, checks: seq<Check>, key: string, r: RunnerResult, other: string)
    requires Sendable(c, key) && Sendable(c, other) && c.token
    ensures OnServer(c, SentOne(c, checks, key, r), other) <==> OnServer(c, checks, other) || Clash(c, key, other)
  {
    hide ParseKey;
    SanitiseCollides(RawContext(key), RawContext(other));
    var after := SentOne(c, checks, key, r);
    if OnServer(c, checks, key) {
    } else {
      assert after[|checks|] == CheckFor(c, key, r) && after[|checks|] in after;
      forall ck | ck in checks ensures ck in after {}
      assert forall ck :: ck in after <==> ck in checks || ck == CheckFor(c, key, r);
    }
  }

  /** The exact suppression condition: the result under a key is not posted if and only if the
      server had its check from the start, or an earlier result of the same patch has a context
      that agrees with it at every position once illegal characters are underscores. */
  lemma {:induction false} SuppressedIff(c: Config, checks: seq<Check>, tree: map<string, RunnerResult>,
                                         order: seq<string>, key: string)
    requires c.token && Sendable(c, key)
    requires forall k <- order :: k in tree && Sendable(c, k)
    ensures OnServer(c, Sent(c, checks, tree, order), key) <==>
              OnServer(c, checks, key) || exists i :: 0 <= i < |order| && Clash(c, order[i], key)
    decreases |order|
  {
    if order != [] {
      var rest := order[1..];
      assert order[0] in order && forall k <- rest :: k in order;
      hide Sendable, SentOne, OnServer, Clash;
      SentOneAddsClashing(c, checks, order[0], tree[order[0]], key);
      SuppressedIff(c, SentOne(c, checks, order[0], tree[order[0]]), tree, rest, key);
      if i :| 0 <= i < |rest| && Clash(c, rest[i], key) {
        assert order[i + 1] == rest[i];
      }
      if i :| 0 <= i < |order| && Clash(c, order[i], key) {
        assert i > 0 ==> rest[i - 1] == order[i];
      }
    }
  }
}
