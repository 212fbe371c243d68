/**
 Where the messages of module EngineQueues are, told from the events of a run and the
 kinds of the messages: which one is refused, which may be dispatched before the
 engine is ready, and which one waits until then.
 */
module EngineHistory {
  import opened EngineQueues

  // ----- What a single event means -----

  /** Does the loop of the engine come to the message `m`? */
  predicate Takes(s: State, e: Event, m: Msg) {
    e.RunTask? && s.tasks != [] && s.tasks[0] == Input(m)
  }

  /** Does the loop of the engine come to handling its queue? */
  predicate Handles(s: State, e: Event) {
    e.RunTask? && s.tasks != [] && s.tasks[0].Handle?
  }

  /** May a message of this kind pass an engine that is not ready? */
  predicate Passes(kind: Kind) {
    kind.StartGraph? || kind.CmdResult?
  }

  // ----- What the first `i` events of a run mean -----

  ghost predicate RunFrom(ss: seq<State>, es: seq<Event>, ready: bool, kind: Kind) {
    Run(ss, es) && ss[0] == Moved(ready, kind)
  }

  function ArrivedIn(es: seq<Event>, i: nat, kind: Kind): (ms: seq<Msg>)
    requires i <= |es|
  {
    if i == 0 then [Msg(0, kind)]
    else
      var before := ArrivedIn(es, i - 1, kind);
      if es[i - 1].Arrive? then before + [Msg(|before|, es[i - 1].kind)] else before
  }

  /** A command to start a graph came through the remote before the engine was ready. */
  predicate WasRefused(ss: seq<State>, es: seq<Event>, i: nat, m: Msg)
    requires i <= |es| < |ss|
  {
    i > 0 && (WasRefused(ss, es, i - 1, m) || (Takes(ss[i - 1], es[i - 1], m) && !ss[i - 1].ready && m.kind.StartGraph?))
  }

  /** The message came with its connection or through the remote of an engine that was
      not ready, and the queue has not been handled since by an engine that lets it pass. */
  predicate IsQueued(ss: seq<State>, es: seq<Event>, i: nat, m: Msg, kind: Kind)
    requires i <= |es| < |ss|
  {
    if i == 0 then m == Msg(0, kind)
    else
      var s, e := ss[i - 1], es[i - 1];
      || (Takes(s, e, m) && !s.ready && !Passes(m.kind))
      || (IsQueued(ss, es, i - 1, m, kind) && !(Handles(s, e) && (s.ready || Passes(m.kind))))
  }

  /** The engine was ready, or the message may pass it, when the loop came to the message
      or to the queue with the message in it. */
  predicate WasDispatched(ss: seq<State>, es: seq<Event>, i: nat, m: Msg, kind: Kind)
    requires i <= |es| < |ss|
  {
    i > 0 &&
    var s, e := ss[i - 1], es[i - 1];
    || WasDispatched(ss, es, i - 1, m, kind)
    || (Takes(s, e, m) && (s.ready || m.kind.CmdResult?))
    || (Handles(s, e) && IsQueued(ss, es, i - 1, m, kind) && (s.ready || Passes(m.kind)))
  }

  /** The tasks posted to the loop of the engine, in order. */
  function Posted(ss: seq<State>, es: seq<Event>, i: nat, kind: Kind): (ts: seq<Task>)
    requires i <= |es| < |ss|
  {
    if i == 0 then [Handle]
    else Posted(ss, es, i - 1, kind) + PostedBy(ss[i - 1], es[i - 1], |ArrivedIn(es, i - 1, kind)|)
  }

  /** A message that has to wait is put into the queue, and a handling is posted for it. */
  function PostedBy(s: State, e: Event, n: nat): (ts: seq<Task>) {
    match e
    case Arrive(kind) => [Input(Msg(n, kind))]
    case Poke => [Handle]
    case BecomeReady => [Handle]
    case RunTask => if s.tasks != [] && s.tasks[0].Input? && !s.ready && !Passes(s.tasks[0].m.kind) then [Handle] else []
  }

  function RunCount(es: seq<Event>, i: nat): (k: nat)
    requires i <= |es|
    ensures k <= i
  {
    if i == 0 then 0 else RunCount(es, i - 1) + if es[i - 1].RunTask? then 1 else 0
  }

  // ----- Single steps -----

  lemma {:induction false} WaitingMembers(ms: seq<Msg>)
    ensures forall m :: m in Waiting(ms) <==> m in ms && !Passes(m.kind)
    ensures forall m :: m in Early(ms) <==> m in ms && Passes(m.kind)
  {
    if ms != [] {
      WaitingMembers(ms[..|ms| - 1]);
      assert ms == ms[..|ms| - 1] + [ms[|ms| - 1]];
    }
  }

  /** What one event does to the places of the messages, for every state and event. */
  ghost predicate Follows(s: State, e: Event, r: State) {
    && (r.ready <==> s.ready || e.BecomeReady?)
    && r.arrived == (if e.Arrive? then s.arrived + [Msg(|s.arrived|, e.kind)] else s.arrived)
    && (forall m :: m in r.refused <==> m in s.refused || (Takes(s, e, m) && !s.ready && m.kind.StartGraph?))
    && (forall m :: m in r.inMsgs <==>
          || (Takes(s, e, m) && !s.ready && !Passes(m.kind))
          || (m in s.inMsgs && !(Handles(s, e) && (s.ready || Passes(m.kind)))))
    && (forall m :: m in r.dispatched <==>
          || m in s.dispatched || (Takes(s, e, m) && (s.ready || m.kind.CmdResult?))
          || (Handles(s, e) && m in s.inMsgs && (s.ready || Passes(m.kind))))
  }

  ghost predicate PostsOnly(s: State, e: Event, r: State) {
    && (e.RunTask? ==> s.tasks != [])
    && r.tasks == (if e.RunTask? then s.tasks[1..] else s.tasks) + PostedBy(s, e, |s.arrived|)
  }

  lemma StepFollows(s: State, e: Event)
    requires Enabled(s, e)
    ensures Follows(s, e, Next(s, e)) && PostsOnly(s, e, Next(s, e))
  {
    WaitingMembers(s.inMsgs);
    hide Waiting, Early;
  }

  // ----- Runs -----

  lemma RunFollows(ss: seq<State>, es: seq<Event>, i: nat, ready: bool, kind: Kind)
    requires RunFrom(ss, es, ready, kind) && 0 < i <= |es|
    ensures |ss| == |es| + 1
    ensures Follows(ss[i - 1], es[i - 1], ss[i]) && PostsOnly(ss[i - 1], es[i - 1], ss[i])
  {
    hide Next, Enabled, Follows, PostsOnly;
    assert Enabled(ss[i - 1], es[i - 1]);
    StepFollows(ss[i - 1], es[i - 1]);
  }

  /** In every run, whenever the engine becomes ready: where each message is. */
  lemma {:induction false} PlacesExactly(ss: seq<State>, es: seq<Event>, i: nat, ready: bool, kind: Kind)
    requires RunFrom(ss, es, ready, kind) && i <= |es|
    ensures |ss| == |es| + 1
    ensures ss[i].ready <==> ready || BecomeReady in es[..i]
    ensures ss[i].arrived == ArrivedIn(es, i, kind)
    ensures forall m :: m in ss[i].refused <==> WasRefused(ss, es, i, m)
    ensures forall m :: m in ss[i].inMsgs <==> IsQueued(ss, es, i, m, kind)
    ensures forall m :: m in ss[i].dispatched <==> WasDispatched(ss, es, i, m, kind)
  {
    hide Takes, Handles, Passes, PostsOnly;
    if i > 0 {
      RunFollows(ss, es, i, ready, kind);
      PlacesExactly(ss, es, i - 1, ready, kind);
      hide Run;
      assert es[..i] == es[..i - 1] + [es[i - 1]];
    }
  }

  /** The loop of the engine runs the tasks in the order in which they were posted. */
  lemma {:induction false} TasksInTurn(ss: seq<State>, es: seq<Event>, i: nat, ready: bool, kind: Kind)
    requires RunFrom(ss, es, ready, kind) && i <= |es|
    ensures |ss| == |es| + 1 && RunCount(es, i) <= |Posted(ss, es, i, kind)|
    ensures ss[i].tasks == Posted(ss, es, i, kind)[RunCount(es, i)..]
  {
    hide Follows, PostedBy;
    if i > 0 {
      RunFollows(ss, es, i, ready, kind);
      TasksInTurn(ss, es, i - 1, ready, kind);
      PlacesExactly(ss, es, i - 1, ready, kind);
      hide Run;
      InTurn(Posted(ss, es, i - 1, kind), RunCount(es, i - 1), ss[i - 1].tasks, es[i - 1].RunTask?,
             PostedBy(ss[i - 1], es[i - 1], |ss[i - 1].arrived|));
    }
  }

  lemma InTurn<T>(before: seq<T>, k: nat, q: seq<T>, runs: bool, more: seq<T>)
    requires k <= |before| && q == before[k..] && (runs ==> q != [])
    ensures var n := if runs then k + 1 else k;
            n <= |before| && (if runs then q[1..] else q) + more == (before + more)[n..]
  {
  }

  /** What the engine may do with a message of each kind: it refuses only commands to
      start a graph that come through the remote, and dispatches nothing else than the
      first one of these and results before it is ready; a result never waits. */
  ghost predicate KindsKept(s: State) {
    && (forall m :: m in s.refused ==> m.kind.StartGraph? && m.n > 0)
    && (forall m :: m in s.inMsgs ==> m.kind.Command? || m.kind.Data? || m.n == 0)
    && (!s.ready ==> forall m :: m in s.dispatched ==> m.kind.CmdResult? || (m.kind.StartGraph? && m.n == 0))
    && (forall t :: t in s.tasks && t.Input? ==> t.m.n > 0)
    && s.arrived != []
  }

  lemma KindsStep(s: State, e: Event, r: State)
    requires KindsKept(s) && Follows(s, e, r) && PostsOnly(s, e, r)
    ensures KindsKept(r)
  {
    forall t | t in r.tasks && t.Input? ensures t.m.n > 0 {
      assert t in s.tasks || e.Arrive?;
    }
    assert forall m :: Takes(s, e, m) ==> Input(m) in s.tasks;
  }

  lemma {:induction false} RunKeepsKinds(ss: seq<State>, es: seq<Event>, i: nat, ready: bool, kind: Kind)
    requires RunFrom(ss, es, ready, kind) && i <= |es|
    ensures |ss| == |es| + 1 && KindsKept(ss[i])
  {
    if i > 0 {
      hide Next, Enabled, KindsKept, Follows, PostsOnly;
      RunFollows(ss, es, i, ready, kind);
      RunKeepsKinds(ss, es, i - 1, ready, kind);
      KindsStep(ss[i - 1], es[i - 1], ss[i]);
    }
  }

  lemma {:induction false} InputsMembers(q: seq<Task>)
    ensures forall m :: m in Inputs(q) <==> Input(m) in q
  {
    if q != [] {
      InputsMembers(q[1..]);
      assert q == [q[0]] + q[1..];
    }
  }

  /** In every run, of what has arrived through the remote: a result is dispatched as soon
      as the loop has come to it; a command to start a graph is dispatched or refused
      then; and no other message is ever refused. */
  lemma ByKind(ss: seq<State>, es: seq<Event>, i: nat, m: Msg, ready: bool, kind: Kind)
    requires RunFrom(ss, es, ready, kind) && i < |ss| && m in ss[i].arrived && m.n > 0
    ensures m.kind.CmdResult? ==> m in ss[i].dispatched || Input(m) in ss[i].tasks
    ensures m.kind.StartGraph? ==> m in ss[i].dispatched || m in ss[i].refused || Input(m) in ss[i].tasks
    ensures m.kind.Command? || m.kind.Data? ==> m in ss[i].dispatched || m in ss[i].inMsgs || Input(m) in ss[i].tasks
  {
    RunsKeepOrder(ss, es, i, ready, kind);
    assert |ss| == |es| + 1;
    RunKeepsKinds(ss, es, i, ready, kind);
    InputsMembers(ss[i].tasks);
    hide Run, Inputs, Inv, Waiting, Safe;
    var s := ss[i];
    assert m in multiset(s.arrived);
    assert m in multiset(s.dispatched) + multiset(s.refused) + multiset(s.inMsgs) + multiset(Inputs(s.tasks));
  }

  /** A ready engine refuses nothing, and a message that comes through its remote is
      dispatched at once, of whatever kind it is. */
  lemma ReadyRefusesNone(s: State, e: Event)
    requires Enabled(s, e) && s.ready
    ensures Next(s, e).refused == s.refused && Next(s, e).ready
    ensures e.RunTask? && s.tasks[0].Input? ==>
              Next(s, e) == s.(tasks := s.tasks[1..], dispatched := s.dispatched + [s.tasks[0].m])
  {
    hide Waiting, Early;
  }
}
