/** From finished results to checks on Patchwork: the dispatcher's rounds over the tree
    "needs dispatch", as a labelled transition system. The iteration, the question to the
    server, the post and the deferred removal are separate steps. */
module Outbox {
  import opened Basics
  import opened Codec

  datatype Poster = Snowpatch(series: Id) | Other

  datatype Check = Check(
    patch: nat, context: string, state: TestState, target: Option<string>, description: Option<string>, poster: Poster)

  // ---- state ----

  /** `must` are the keys present when the iteration began, `drop` those handled so far. */
  datatype PostPc =
    | Resting
    | Iterating(must: set<string>, drop: seq<string>)
    | Looking(must: set<string>, drop: seq<string>, key: string, result: RunnerResult)
    | Posting(must: set<string>, drop: seq<string>, key: string, result: RunnerResult)
    | Acked(must: set<string>, drop: seq<string>, key: string, result: RunnerResult)
    | Removing(drop: seq<string>)
  {
    predicate HoldsKey() { Looking? || Posting? || Acked? }
  }

  datatype Out = Out(
    dispatch: map<string, RunnerResult>,
    pc: PostPc,
    checks: seq<Check>,                        // on the server, which never drops one
    // history
    inbox: set<(Handle, Id, RunnerResult)>,    // results the completion watchers handed over
    received: map<string, RunnerResult>,       // the last result handed over under a key
    sent: map<string, RunnerResult>,           // what the last completed send call of a key was given
    handled: set<string>)                      // keys removed from the tree

  function Init(): Out {
    Out(map[], Resting, [], {}, map[], map[], {})
  }

  function Crash(p: Out): Out {
    p.(pc := Resting)
  }

  /** A completion watcher inserts a result. */
  function Deliver(p: Out, h: Handle, id: Id, r: RunnerResult): Out {
    var key := FormatKey(h, id, r.name);
    p.(dispatch := p.dispatch[key := r], inbox := p.inbox + {(h, id, r)}, received := p.received[key := r])
  }

  datatype Action =
    | RoundBegin
    | Visit(key: string)
    | Skip
    | Look
    | Post
    | Ack
    | IterEnd
    | Remove
    | RoundOver
    | Foreign(check: Check)

  predicate Present(checks: seq<Check>, patch: nat, context: string) {
    exists ck <- checks :: ck.patch == patch && ck.context == context
  }

  predicate Sendable(c: Config, key: string) {
    ParseKey(key).Some? && c.patches(ParseKey(key).value.series) != []
  }

  /** The check for a result: on the last patch of its series, with the sanitised context. */
  function CheckFor(c: Config, key: string, r: RunnerResult): Check
    requires Sendable(c, key)
  {
    var q := ParseKey(key).value;
    var patches := c.patches(q.series);
    Check(patches[|patches| - 1], CheckContext(q.handle, q.name), r.outcome, r.url, r.description, Snowpatch(q.series))
  }

  /** What a result becomes: a check on the last of the patches of its series, with the outcome, link
      and text of the result, under handle and name with a minus sign between. */
  lemma CheckOfResult(c: Config, h: Handle, id: Id, r: RunnerResult)
    requires SpaceFree(h)
    ensures Sendable(c, FormatKey(h, id, r.name)) <==> c.patches(id) != []
    ensures c.patches(id) != [] ==>
              var ck := CheckFor(c, FormatKey(h, id, r.name), r);
              && (exists before :: c.patches(id) == before + [ck.patch])
              && ck.context == Sanitise(h) + "-" + Sanitise(r.name)
              && ck.state == r.outcome && ck.target == r.url && ck.description == r.description
              && ck.poster == Snowpatch(id)
  {
    KeyRoundTrip(h, id, r.name);
    if c.patches(id) != [] {
      var patches := c.patches(id);
      assert patches == patches[..|patches| - 1] + [patches[|patches| - 1]];
      assert Sanitise(h + "-" + r.name) == Sanitise(h) + "-" + Sanitise(r.name);
    }
  }

  /** The server has a check, by whomever, with the patch and context of this key. */
  predicate OnServer(c: Config, checks: seq<Check>, key: string) {
    Sendable(c, key) &&
    var q := ParseKey(key).value;
    var patches := c.patches(q.series);
    Present(checks, patches[|patches| - 1], CheckContext(q.handle, q.name))
  }

  /** A malformed key and a series without patches are errors of the dispatcher, which end the
      process; so they disable the step here. A pass over an empty tree is not a step. */
  predicate Enabled(c: Config, p: Out, a: Action) {
    match a
    case RoundBegin => p.pc.Resting? && p.dispatch != map[]
    case Visit(key) => p.pc.Iterating? && key in p.dispatch && key !in p.pc.drop && ParseKey(key).Some?
    case Skip => p.pc.Looking? && !c.token
    case Look => p.pc.Looking? && c.token && Sendable(c, p.pc.key)
    case Post => p.pc.Posting? && Sendable(c, p.pc.key)
    case Ack => p.pc.Acked?
    case IterEnd => p.pc.Iterating? && forall key <- p.pc.must :: key in p.pc.drop
    case Remove => p.pc.Removing? && p.pc.drop != []
    case RoundOver => p.pc.Removing? && p.pc.drop == []
    case Foreign(check) => check.poster.Other?
  }

  /** The send call for the current key has returned without an error. */
  function SendDone(p: Out): Out
    requires p.pc.HoldsKey()
  {
    p.(pc := Iterating(p.pc.must, p.pc.drop + [p.pc.key]), sent := p.sent[p.pc.key := p.pc.result])
  }

  function Apply(c: Config, p: Out, a: Action): Out
    requires Enabled(c, p, a)
  {
    match a
    case RoundBegin => p.(pc := Iterating(p.dispatch.Keys, []))
    case Visit(key) => p.(pc := Looking(p.pc.must, p.pc.drop, key, p.dispatch[key]))
    case Skip => SendDone(p)
    case Look =>
      if OnServer(c, p.checks, p.pc.key) then SendDone(p)
      else p.(pc := Posting(p.pc.must, p.pc.drop, p.pc.key, p.pc.result))
    case Post =>
      p.(pc := Acked(p.pc.must, p.pc.drop, p.pc.key, p.pc.result),
         checks := p.checks + [CheckFor(c, p.pc.key, p.pc.result)])
    case Ack => SendDone(p)
    case IterEnd => p.(pc := Removing(p.pc.drop))
    case Remove =>
      p.(pc := Removing(p.pc.drop[1..]), dispatch := p.dispatch - {p.pc.drop[0]}, handled := p.handled + {p.pc.drop[0]})
    case RoundOver => p.(pc := Resting)
    case Foreign(check) => p.(checks := p.checks + [check])
  }

  // ---- what holds for every configuration ----

  ghost predicate KeySound(key: string, r: RunnerResult, inbox: set<(Handle, Id, RunnerResult)>) {
    && ParseKey(key).Some?
    && ParseKey(key).value.name == r.name
    && (ParseKey(key).value.handle, ParseKey(key).value.series, r) in inbox
  }

  ghost predicate TreeSound(dispatch: map<string, RunnerResult>, inbox: set<(Handle, Id, RunnerResult)>) {
    forall key :: key in dispatch ==> KeySound(key, dispatch[key], inbox)
  }

  /** A check is explained by a result that was handed over for its series. */
  ghost predicate Explains(c: Config, x: (Handle, Id, RunnerResult), check: Check) {
    && check.poster == Snowpatch(x.1)
    && c.patches(x.1) != []
    && check.patch == c.patches(x.1)[|c.patches(x.1)| - 1]
    && check.context == CheckContext(x.0, x.2.name)
    && check.state == x.2.outcome && check.target == x.2.url && check.description == x.2.description
  }

  ghost predicate Explained(c: Config, checks: seq<Check>, inbox: set<(Handle, Id, RunnerResult)>) {
    forall i :: 0 <= i < |checks| && checks[i].poster.Snowpatch? ==> exists x :: x in inbox && Explains(c, x, checks[i])
  }

  /** No two checks posted by snowpatch share patch and context. */
  ghost predicate PostedOnce(checks: seq<Check>) {
    forall i, j :: 0 <= i < j < |checks| && checks[i].poster.Snowpatch? && checks[j].poster.Snowpatch?
                   ==> checks[i].patch != checks[j].patch || checks[i].context != checks[j].context
  }

  ghost predicate OursAbsent(c: Config, checks: seq<Check>, key: string, r: RunnerResult) {
    Sendable(c, key) ==>
      forall i :: 0 <= i < |checks| && checks[i].poster.Snowpatch? ==>
        checks[i].patch != CheckFor(c, key, r).patch || checks[i].context != CheckFor(c, key, r).context
  }

  ghost predicate PcSound(c: Config, p: Out) {
    match p.pc
    case Resting => true
    case Iterating(must, drop) => DropSound(c, p, drop) && {} < must <= p.dispatch.Keys
    case Looking(must, drop, key, r) => HoldSound(c, p, must, drop, key, r)
    case Posting(must, drop, key, r) => HoldSound(c, p, must, drop, key, r) && OursAbsent(c, p.checks, key, r)
    case Acked(must, drop, key, r) => HoldSound(c, p, must, drop, key, r) && OnServer(c, p.checks, key)
    case Removing(drop) => DropSound(c, p, drop)
  }

  /** Keys marked for removal are in the tree, once each, and their check is on the server. */
  ghost predicate DropSound(c: Config, p: Out, drop: seq<string>) {
    && Distinct(drop)
    && (forall key :: key in drop ==> key in p.dispatch)
    && (c.token ==> forall key :: key in drop ==> OnServer(c, p.checks, key))
  }

  ghost predicate HoldSound(c: Config, p: Out, must: set<string>, drop: seq<string>, key: string, r: RunnerResult) {
    && DropSound(c, p, drop)
    && {} < must <= p.dispatch.Keys
    && key in p.dispatch && key !in drop
    && KeySound(key, r, p.inbox)
  }

  ghost predicate HandledSound(c: Config, handled: set<string>, checks: seq<Check>) {
    c.token ==> forall key :: key in handled ==> OnServer(c, checks, key)
  }

  /** Nothing handed over is lost: it is in the tree or its key was handled. */
  ghost predicate Conserved(p: Out) {
    p.received.Keys == p.dispatch.Keys + p.handled
  }

  ghost predicate Sound(c: Config, p: Out) {
    && TreeSound(p.dispatch, p.inbox)
    && Explained(c, p.checks, p.inbox)
    && PostedOnce(p.checks)
    && PcSound(c, p)
    && HandledSound(c, p.handled, p.checks)
    && Conserved(p)
  }

  lemma SoundInit(c: Config)
    ensures Sound(c, Init())
  {
  }

  lemma SoundCrash(c: Config, p: Out)
    requires Sound(c, p)
    ensures Sound(c, Crash(p))
  {
  }

  lemma SoundDeliver(c: Config, p: Out, h: Handle, id: Id, r: RunnerResult)
    requires Sound(c, p) && SpaceFree(h)
    ensures Sound(c, Deliver(p, h, id, r))
  {
    KeyRoundTrip(h, id, r.name);
    var p' := Deliver(p, h, id, r);
    assert p'.received.Keys == p'.dispatch.Keys + p'.handled;
  }

  lemma MoreChecks(c: Config, checks: seq<Check>, more: Check, key: string)
    requires OnServer(c, checks, key)
    ensures OnServer(c, checks + [more], key)
  {
    var q := ParseKey(key).value;
    var patches := c.patches(q.series);
    var ck :| ck in checks && ck.patch == patches[|patches| - 1] && ck.context == CheckContext(q.handle, q.name);
    assert ck in checks + [more];
  }

  lemma AllMoreChecks(c: Config, checks: seq<Check>, more: Check)
    ensures forall key :: OnServer(c, checks, key) ==> OnServer(c, checks + [more], key)
  {
    forall key | OnServer(c, checks, key) ensures OnServer(c, checks + [more], key) {
      MoreChecks(c, checks, more, key);
    }
  }

  lemma SoundForeign(c: Config, p: Out, a: Action)
    requires Sound(c, p) && Enabled(c, p, a) && a.Foreign?
    ensures Sound(c, Apply(c, p, a))
  {
    hide OnServer, Explains, TreeSound;
    AllMoreChecks(c, p.checks, a.check);
  }

  lemma SoundPost(c: Config, p: Out, a: Action)
    requires Sound(c, p) && Enabled(c, p, a) && a.Post?
    ensures Sound(c, Apply(c, p, a))
  {
    var key, r := p.pc.key, p.pc.result;
    var check := CheckFor(c, key, r);
    var checks := p.checks + [check];
    AllMoreChecks(c, p.checks, check);
    var q := ParseKey(key).value;
    assert Explains(c, (q.handle, q.series, r), check);
    assert checks[|p.checks|] == check && check in checks;
    assert OnServer(c, checks, key);
  }

  lemma SoundLook(c: Config, p: Out, a: Action)
    requires Sound(c, p) && Enabled(c, p, a)
    requires a.Skip? || a.Look? || a.Ack?
    ensures Sound(c, Apply(c, p, a))
  {
    var key, r := p.pc.key, p.pc.result;
    if a.Look? && !OnServer(c, p.checks, key) {
      forall i | 0 <= i < |p.checks| && p.checks[i].poster.Snowpatch?
        ensures p.checks[i].patch != CheckFor(c, key, r).patch || p.checks[i].context != CheckFor(c, key, r).context
      {
        assert p.checks[i] in p.checks;
      }
    }
  }

  lemma SoundRound(c: Config, p: Out, a: Action)
    requires Sound(c, p) && Enabled(c, p, a)
    requires a.RoundBegin? || a.Visit? || a.IterEnd? || a.RoundOver?
    ensures Sound(c, Apply(c, p, a))
  {
  }

  lemma SoundRemove(c: Config, p: Out, a: Action)
    requires Sound(c, p) && Enabled(c, p, a) && a.Remove?
    ensures Sound(c, Apply(c, p, a))
  {
    hide OnServer, KeySound, Explained, PostedOnce;
    var p', key := Apply(c, p, a), p.pc.drop[0];
    assert forall k :: k in p.pc.drop[1..] ==> k in p.pc.drop && k != key;
    assert p'.dispatch.Keys + p'.handled == p.dispatch.Keys + p.handled;
  }

  lemma SoundStep(c: Config, p: Out, a: Action)
    requires Sound(c, p) && Enabled(c, p, a)
    ensures Sound(c, Apply(c, p, a))
  {
    hide Sound;
    match a
    case Foreign(_) => SoundForeign(c, p, a);
    case Post => SoundPost(c, p, a);
    case Skip => SoundLook(c, p, a);
    case Look => SoundLook(c, p, a);
    case Ack => SoundLook(c, p, a);
    case Remove => SoundRemove(c, p, a);
    case _ => SoundRound(c, p, a);
  }

  // ---- what holds when a key is handed over at most once ----

  /** A key in the tree or being sent still holds the result it was handed over with; a key
      marked for removal or removed was sent with that result. */
  ghost predicate Faithful(p: Out) {
    && p.dispatch.Keys !! p.handled
    && (forall key :: key in p.dispatch ==> key in p.received && p.dispatch[key] == p.received[key])
    && (forall key :: key in p.handled ==> key in p.received && key in p.sent && p.sent[key] == p.received[key])
    && (p.pc.HoldsKey() ==> p.pc.key in p.dispatch && p.pc.key !in p.pc.drop && p.pc.result == p.dispatch[p.pc.key])
    && (!p.pc.Resting? ==> Distinct(p.pc.drop) && forall key <- p.pc.drop ::
          key in p.dispatch && key in p.sent && p.sent[key] == p.received[key])
  }

  lemma FaithfulDeliver(p: Out, h: Handle, id: Id, r: RunnerResult)
    requires Faithful(p) && Conserved(p) && FormatKey(h, id, r.name) !in p.received
    ensures Faithful(Deliver(p, h, id, r))
  {
  }

  lemma FaithfulRemove(c: Config, p: Out, a: Action)
    requires Faithful(p) && Enabled(c, p, a) && a.Remove?
    ensures Faithful(Apply(c, p, a))
  {
    assert forall k :: k in p.pc.drop[1..] ==> k in p.pc.drop && k != p.pc.drop[0];
  }

  lemma FaithfulSend(c: Config, p: Out, a: Action)
    requires Faithful(p) && Enabled(c, p, a)
    requires a.Skip? || a.Look? || a.Post? || a.Ack?
    ensures Faithful(Apply(c, p, a))
  {
    hide OnServer, CheckFor, Sendable;
  }

  lemma FaithfulStep(c: Config, p: Out, a: Action)
    requires Faithful(p) && Enabled(c, p, a)
    ensures Faithful(Apply(c, p, a))
  {
    match a
    case Remove => FaithfulRemove(c, p, a);
    case Skip => FaithfulSend(c, p, a);
    case Look => FaithfulSend(c, p, a);
    case Post => FaithfulSend(c, p, a);
    case Ack => FaithfulSend(c, p, a);
    case _ =>
  }
}
