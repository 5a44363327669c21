/** Waiting for a tree: the consumer of a tree passes over it, then subscribes to changes,
    looks whether the tree is empty, and blocks. Producers insert at any moment. The order of
    subscribing and looking is a parameter, so that the model says what the order is good for. */
module Wakeup {
  import opened Database

  /** `Halfway` is between the two operations of the wait. */
  datatype Pc = Passing | Waiting | Halfway | Blocked

  datatype State = State(
    tree: set<Key>,
    pc: Pc,
    subscribed: bool,
    events: nat,               // changes the subscription has not delivered
    must: set<Key>,         // keys present when the pass began and not removed since
    yielded: set<Key>,      // keys this pass has yielded and not removed since
    // history
    recent: set<Key>,        // keys inserted since the pass began
    unseen: set<Key>)       // keys inserted and not yielded since

  datatype Action =
    | Insert(key: Key)
    | Yield(key: Key)
    | Remove(key: Key)
    | PassEnd
    | First
    | Second
    | Wake

  /** The process starts with a pass over what an earlier process left in the tree. */
  function Init(tree: set<Key>): State {
    State(tree, Passing, false, 0, tree, {}, {}, tree)
  }

  /** The consumer is the only one who removes, and it removes what it was given. An iterator
      yields every key that was there from the start. A key is not inserted again between being
      yielded and being removed; the queues of the pipeline get a key only once. */
  predicate Enabled(s: State, a: Action) {
    match a
    case Insert(key) => !(key in s.tree && key in s.yielded)
    case Yield(key) => s.pc.Passing? && key in s.tree && key !in s.yielded
    case Remove(key) => s.pc.Passing? && key in s.yielded && key in s.tree
    case PassEnd => s.pc.Passing? && s.must <= s.yielded
    case First => s.pc.Waiting?
    case Second => s.pc.Halfway?
    case Wake => s.pc.Blocked? && s.events > 0
  }

  function BeginPass(s: State): State {
    s.(pc := Passing, subscribed := false, events := 0, must := s.tree, yielded := {}, recent := {})
  }

  function Subscribe(s: State, next: Pc): State {
    s.(pc := next, subscribed := true, events := 0)
  }

  function Look(s: State, next: Pc): State {
    if s.tree != {} then BeginPass(s) else s.(pc := next)
  }

  function Apply(subscribeFirst: bool, s: State, a: Action): State
    requires Enabled(s, a)
  {
    match a
    case Insert(key) =>
      s.(tree := s.tree + {key}, events := if s.subscribed then s.events + 1 else s.events,
         recent := s.recent + {key}, unseen := s.unseen + {key})
    case Yield(key) => s.(yielded := s.yielded + {key}, unseen := s.unseen - {key})
    case Remove(key) => s.(tree := s.tree - {key}, must := s.must - {key}, yielded := s.yielded - {key})
    case PassEnd => s.(pc := Waiting)
    case First => if subscribeFirst then Subscribe(s, Halfway) else Look(s, Halfway)
    case Second => if subscribeFirst then Look(s, Blocked) else Subscribe(s, Blocked)
    case Wake => BeginPass(s)
  }

  predicate Legal(subscribeFirst: bool, s: State, run: seq<Action>)
    decreases |run|
  {
    run == [] || (Enabled(s, run[0]) && Legal(subscribeFirst, Apply(subscribeFirst, s, run[0]), run[1..]))
  }

  function Run(subscribeFirst: bool, s: State, run: seq<Action>): State
    requires Legal(subscribeFirst, s, run)
    decreases |run|
  {
    if run == [] then s else Run(subscribeFirst, Apply(subscribeFirst, s, run[0]), run[1..])
  }

  /** The consumer sleeps and nothing will wake it. */
  predicate Asleep(s: State) {
    s.pc.Blocked? && s.events == 0
  }

  ghost predicate Inv(s: State) {
    && s.unseen <= s.tree
    && s.yielded <= s.tree - s.unseen
    && (s.pc.Passing? ==> s.unseen <= (s.must - s.yielded) + s.recent)
    && (!s.pc.Passing? ==> s.unseen <= s.recent)
    && (s.pc.Halfway? || s.pc.Blocked? ==> s.subscribed)
    && (Asleep(s) ==> s.tree == {})
    && ((s.pc.Halfway? || s.pc.Blocked?) && s.events > 0 ==> s.tree != {})
  }

  lemma StepKeepsInv(s: State, a: Action)
    requires Inv(s) && Enabled(s, a)
    ensures Inv(Apply(true, s, a))
  {
  }

  lemma {:induction false} RunKeepsInv(s: State, run: seq<Action>)
    requires Inv(s) && Legal(true, s, run)
    ensures Inv(Run(true, s, run))
    decreases |run|
  {
    if run != [] {
      StepKeepsInv(s, run[0]);
      RunKeepsInv(Apply(true, s, run[0]), run[1..]);
    }
  }

  ghost predicate NeverLoses(subscribeFirst: bool) {
    forall tree, run :: Legal(subscribeFirst, Init(tree), run) && Asleep(Run(subscribeFirst, Init(tree), run))
                        ==> Run(subscribeFirst, Init(tree), run).tree == {}
  }

  /** No wakeup is lost exactly because the subscription comes first. */
  lemma NoLostWakeupIffSubscribedFirst(subscribeFirst: bool)
    ensures NeverLoses(subscribeFirst) <==> subscribeFirst
  {
    if subscribeFirst {
      forall tree, run | Legal(true, Init(tree), run) ensures Inv(Run(true, Init(tree), run)) {
        RunKeepsInv(Init(tree), run);
      }
    } else {
      var run := LosingRun();
    }
  }

  /** Looking first: a key inserted before the subscription is waited for in vain. */
  lemma LosingRun() returns (run: seq<Action>)
    ensures Legal(false, Init({}), run)
    ensures Asleep(Run(false, Init({}), run)) && Run(false, Init({}), run).tree != {}
  {
    run := [PassEnd, First, Insert(Text("k")), Second];
    var s1 := Apply(false, Init({}), PassEnd);
    var s2 := Apply(false, s1, First);
    var s3 := Apply(false, s2, Insert(Text("k")));
    var s4 := Apply(false, s3, Second);
    assert run[1..] == [First, Insert(Text("k")), Second];
    assert run[1..][1..] == [Insert(Text("k")), Second];
    assert run[1..][1..][1..] == [Second];
    assert Legal(false, s4, []) && Run(false, s4, []) == s4;
    assert Legal(false, s3, [Second]) && Run(false, s3, [Second]) == s4;
    assert Legal(false, s2, [Insert(Text("k")), Second]) && Run(false, s2, [Insert(Text("k")), Second]) == s4;
  }

  /** A key that no pass has seen is in the tree, and came in during the latest pass or after it, or
      else that pass cannot end without it; and the consumer is not asleep. */
  ghost predicate SeenByNextPass(s: State, key: Key) {
    && key in s.tree
    && (!s.pc.Passing? ==> key in s.recent)
    && (s.pc.Passing? && key !in s.recent ==> key in s.must && key !in s.yielded && !Enabled(s, PassEnd))
    && !Asleep(s)
  }

  lemma UnseenIsNext(s: State, key: Key)
    requires Inv(s) && key in s.unseen
    ensures SeenByNextPass(s, key)
  {
  }

  lemma EachKeyIsSeenByTheNextPass(tree: set<Key>, run: seq<Action>, key: Key)
    requires Legal(true, Init(tree), run) && key in Run(true, Init(tree), run).unseen
    ensures SeenByNextPass(Run(true, Init(tree), run), key)
  {
    RunKeepsInv(Init(tree), run);
    UnseenIsNext(Run(true, Init(tree), run), key);
  }
}
