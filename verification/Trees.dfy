/** The trees of the database, each by its name, and what it means that they are the trees of a
    state of the transition system. */
module Trees {
  import opened Basics
  import opened Codec
  import opened Database
  import opened Protocol
  import Dispatching
  import GitWork
  import Watching

  datatype Place =
    | Seen
    | Needs
    | Awaiting
    | Failures
    | Dispatch
    | WorkerOf(w: nat)
    | QueueOf(h: Handle)
    | WorkingOf(h: Handle)

  function NameOf(p: Place): string {
    match p
    case Seen => "seen by watchcat"
    case Needs => "needs testing"
    case Awaiting => "awaiting git worker"
    case Failures => "git failures"
    case Dispatch => "needs dispatch"
    case WorkerOf(w) => "git worker " + Decimal(w)
    case QueueOf(h) => h + " queue"
    case WorkingOf(h) => h + " working"
  }

  /** The last character of a name tells most places apart. */
  lemma LastOf(p: Place)
    ensures var x := NameOf(p);
            && |x| >= 6
            && (match p
                case Seen => x[|x| - 1] == 't'
                case Needs => x[|x| - 1] == 'g' && |x| == 13 && x[6] == 't'
                case Awaiting => x[|x| - 1] == 'r'
                case Failures => x[|x| - 1] == 's'
                case Dispatch => x[|x| - 1] == 'h'
                case WorkerOf(_) => '0' <= x[|x| - 1] <= '9'
                case QueueOf(_) => x[|x| - 1] == 'e'
                case WorkingOf(_) => x[|x| - 1] == 'g' && |x| >= 8 && x[|x| - 7] == 'w')
  {
    if p.WorkerOf? {
      DecimalValue(p.w);
      var x := NameOf(p);
      assert IsDigit(Decimal(p.w)[|Decimal(p.w)| - 1]) && x[|x| - 1] == Decimal(p.w)[|Decimal(p.w)| - 1];
    }
  }

  /** No two places share a name, whatever the handles are. */
  lemma NamesApart(a: Place, b: Place)
    ensures NameOf(a) == NameOf(b) <==> a == b
  {
    LastOf(a);
    LastOf(b);
    if NameOf(a) == NameOf(b) {
      SameKind(a, b);
    }
  }

  lemma SameKind(a: Place, b: Place)
    requires NameOf(a) == NameOf(b)
    ensures a == b
  {
    LastOf(a);
    LastOf(b);
    var x, y := NameOf(a), NameOf(b);
    match a
    case WorkerOf(w) =>
      assert Decimal(w) == x[11..] && Decimal(b.w) == y[11..];
      DecimalValue(w);
      DecimalValue(b.w);
    case QueueOf(h) => assert h == x[..|x| - 6] && b.h == y[..|y| - 6];
    case WorkingOf(h) => assert h == x[..|x| - 8] && b.h == y[..|y| - 8];
    case _ =>
  }

  /** The names the loops use are those of the places; also for the one handle there is. */
  lemma NamesInUse(w: nat, h: Handle)
    ensures GitWork.WorkerTree(w) == NameOf(WorkerOf(w))
    ensures GitWork.QueueTree(h) == NameOf(QueueOf(h)) && Watching.WorkingTree(h) == NameOf(WorkingOf(h))
    ensures NameOf(Seen) == "seen by watchcat" && NameOf(Needs) == "needs testing"
    ensures NameOf(Awaiting) == "awaiting git worker" && NameOf(Failures) == "git failures"
    ensures NameOf(Dispatch) == "needs dispatch"
    ensures NameOf(WorkerOf(3)) == "git worker 3"
    ensures NameOf(QueueOf("github")) == "github queue" && NameOf(WorkingOf("github")) == "github working"
  {
    assert Decimal(3) == "3";
  }

  /** The list of remotes is none of them. */
  lemma RemotesApart(p: Place)
    ensures NameOf(p) != "remotes to push to"
  {
    LastOf(p);
    var x := "remotes to push to";
    assert x[|x| - 1] == 'o';
  }

  // ---- what a tree holds ----

  function In(trees: map<string, Tree>, p: Place): Tree {
    TreeIn(trees, NameOf(p))
  }

  /** A tree keyed by encoded ids holds these series with these values. */
  ghost predicate HoldsIds(tree: Tree, series: map<Id, string>) {
    forall id: Id :: (Num(id) in tree <==> id in series) && (id in series ==> tree[Num(id)] == Mbox(series[id]))
  }

  ghost predicate HoldsWork(tree: Tree, work: map<(nat, Id), string>, w: nat) {
    forall id: Id :: (Num(id) in tree <==> (w, id) in work) &&
        ((w, id) in work ==> tree[Num(id)] == Mbox(work[(w, id)]))
  }

  /** A tree keyed by the text of ids holds the series of this handle. */
  ghost predicate HoldsPairs(tree: Tree, pairs: set<(Handle, Id)>, h: Handle) {
    forall id: Id :: Text(Decimal(id)) in tree <==> (h, id) in pairs
  }

  ghost predicate HoldsTexts(tree: Tree, ids: set<Id>) {
    forall id: Id :: Text(Decimal(id)) in tree <==> id in ids
  }

  /** The tree of this name is the tree of the state. */
  ghost predicate At(trees: map<string, Tree>, s: State, p: Place) {
    match p
    case Seen => HoldsTexts(In(trees, p), s.front.seen)
    case Needs => HoldsIds(In(trees, p), s.front.needsTesting)
    case Awaiting => HoldsIds(In(trees, p), s.front.awaiting)
    case Failures => HoldsIds(In(trees, p), s.front.failures)
    case Dispatch => Dispatching.Holds(In(trees, p), s.out.dispatch)
    case WorkerOf(w) => HoldsWork(In(trees, p), s.front.onWorker, w)
    case QueueOf(h) => HoldsPairs(In(trees, p), s.ci.queue, h)
    case WorkingOf(h) => HoldsPairs(In(trees, p), s.ci.working, h)
  }

  /** Every tree is. */
  ghost predicate Represents(trees: map<string, Tree>, s: State) {
    forall p :: At(trees, s, p)
  }

  /** The state has the same at this place. */
  ghost predicate SameAt(s: State, s': State, p: Place) {
    match p
    case Seen => s'.front.seen == s.front.seen
    case Needs => s'.front.needsTesting == s.front.needsTesting
    case Awaiting => s'.front.awaiting == s.front.awaiting
    case Failures => s'.front.failures == s.front.failures
    case Dispatch => s'.out.dispatch == s.out.dispatch
    case WorkerOf(w) =>
      && (forall id: Id :: (w, id) in s'.front.onWorker <==> (w, id) in s.front.onWorker)
      && (forall id: Id :: (w, id) in s.front.onWorker ==> s'.front.onWorker[(w, id)] == s.front.onWorker[(w, id)])
    case QueueOf(h) => forall id: Id :: (h, id) in s'.ci.queue <==> (h, id) in s.ci.queue
    case WorkingOf(h) => forall id: Id :: (h, id) in s'.ci.working <==> (h, id) in s.ci.working
  }

  /** The trees of the watchcat and of the git side are the same. */
  ghost predicate SameFront(s: State, s': State) {
    && s'.front.seen == s.front.seen && s'.front.needsTesting == s.front.needsTesting
    && s'.front.awaiting == s.front.awaiting && s'.front.failures == s.front.failures
    && s'.front.onWorker == s.front.onWorker
  }

  lemma Frame(trees: map<string, Tree>, trees': map<string, Tree>, s: State, s': State, p: Place)
    requires At(trees, s, p) && In(trees', p) == In(trees, p) && SameAt(s, s', p)
    ensures At(trees', s', p)
  {
    hide TreeIn, NameOf, Dispatching.Holds, Decimal;
  }

  lemma IdTextsDiffer(a: Id, b: Id)
    ensures Decimal(a) == Decimal(b) <==> a == b
  {
    DecimalRoundTrip(a);
    DecimalRoundTrip(b);
  }
}
