/**
 An engine that is not ready yet puts the messages it is given back into its queue.
 The module follows the messages of one connection that has moved to the engine,
 from the tasks of the engine's loop to their dispatching.
 */
module EngineQueues {

  /** A command to start a graph, a result, another command, or no command at all. */
  datatype Kind = StartGraph | CmdResult | Command | Data

  /** Does the message have to wait until the engine is ready? */
  predicate Waits(kind: Kind) {
    kind.Command? || kind.Data?
  }

  /** The `n`-th message of the connection. */
  datatype Msg = Msg(n: nat, kind: Kind)

  /** `Handle`: the engine handles its queue; `Input`: a message that comes through the
      remote of the connection. */
  datatype Task = Handle | Input(m: Msg)

  /** `inMsgs` is the engine's queue, `tasks` its loop. History: what arrived, what was
      dispatched, which commands to start a graph were refused, and whether an
      assertion has failed. */
  datatype State = State(
    ready: bool, inMsgs: seq<Msg>, tasks: seq<Task>, arrived: seq<Msg>, dispatched: seq<Msg>, refused: seq<Msg>, fault: bool)

  /** `Poke`: somebody else makes the engine handle its queue. */
  datatype Event = Arrive(kind: Kind) | Poke | BecomeReady | RunTask

  /** The first message has moved to the engine with its connection. */
  function Moved(ready: bool, kind: Kind): State {
    State(ready, [Msg(0, kind)], [Handle], [Msg(0, kind)], [], [], false)
  }

  // ----- What the functions of the program do to the state -----

  /** The messages of the kind that has to wait until the engine is ready. */
  function Waiting(ms: seq<Msg>): (r: seq<Msg>) {
    if ms == [] then [] else Waiting(ms[..|ms| - 1]) + if Waits(ms[|ms| - 1].kind) then [ms[|ms| - 1]] else []
  }

  function Early(ms: seq<Msg>): (r: seq<Msg>) {
    if ms == [] then [] else Early(ms[..|ms| - 1]) + if Waits(ms[|ms| - 1].kind) then [] else [ms[|ms| - 1]]
  }

  /** `ten_engine_append_to_in_msgs_queue`, which asserts that it gets a command or a result. */
  function Append(s: State, m: Msg): State {
    s.(inMsgs := s.inMsgs + [m], tasks := s.tasks + [Handle], fault := s.fault || m.kind.Data?)
  }

  /** `ten_engine_handle_in_msgs_sync` */
  function HandleInMsgs(s: State): State {
    if s.ready then s.(dispatched := s.dispatched + s.inMsgs, inMsgs := [])
    else s.(dispatched := s.dispatched + Early(s.inMsgs), inMsgs := Waiting(s.inMsgs))
  }

  /** `ten_engine_receive_msg_from_remote` */
  function Receive(s: State, m: Msg): State {
    if s.ready || m.kind.CmdResult? then s.(dispatched := s.dispatched + [m])
    else if m.kind.StartGraph? then s.(refused := s.refused + [m])
    else Append(s, m)
  }

  predicate Enabled(s: State, e: Event) {
    match e
    case Arrive(_) => true
    case Poke => true
    case BecomeReady => !s.ready
    case RunTask => s.tasks != []
  }

  function Next(s: State, e: Event): State
    requires Enabled(s, e)
  {
    match e
    case Arrive(kind) =>
      var m := Msg(|s.arrived|, kind);
      s.(arrived := s.arrived + [m], tasks := s.tasks + [Input(m)])
    case Poke => s.(tasks := s.tasks + [Handle])
    case BecomeReady => s.(ready := true, tasks := s.tasks + [Handle])
    case RunTask =>
      var t := s.(tasks := s.tasks[1..]);
      if s.tasks[0].Handle? then HandleInMsgs(t) else Receive(t, s.tasks[0].m)
  }

  // ----- Invariants -----

  function Inputs(q: seq<Task>): (ms: seq<Msg>) {
    if q == [] then [] else (if q[0].Input? then [q[0].m] else []) + Inputs(q[1..])
  }

  /** The messages that the loop comes to before it handles the queue again. */
  function Ahead(q: seq<Task>): (ms: seq<Msg>) {
    if q == [] || q[0].Handle? then [] else [q[0].m] + Ahead(q[1..])
  }

  /** Every message is in one place. */
  ghost predicate Conserved(s: State) {
    multiset(s.dispatched) + multiset(s.refused) + multiset(s.inMsgs) + multiset(Inputs(s.tasks)) == multiset(s.arrived)
  }

  /** What has to wait is dispatched in the order in which it arrived. */
  ghost predicate InOrder(s: State) {
    Waiting(s.dispatched) + Waiting(s.inMsgs) + Waiting(Inputs(s.tasks)) == Waiting(s.arrived)
  }

  ghost predicate Numbered(ms: seq<Msg>) {
    forall i :: 0 <= i < |ms| ==> ms[i].n == i
  }

  /** What waits in a ready engine will be handled, without a message of the same
      connection coming in between. */
  ghost predicate HandledNext(s: State) {
    s.ready && Waiting(s.inMsgs) != [] ==> Handle in s.tasks && Waiting(Ahead(s.tasks)) == []
  }

  ghost predicate Inv(s: State) {
    InOrder(s) && HandledNext(s) && Numbered(s.arrived) && !s.fault
  }

  /** The engine must not become ready while a message waits in its queue and another
      one of the same connection is in its loop ahead of the next handling; and what
      is no command must not reach it before it is ready. */
  ghost predicate Safe(s: State, e: Event) {
    match e
    case BecomeReady => Waiting(s.inMsgs) == [] || Waiting(Ahead(s.tasks)) == []
    case RunTask => s.tasks != [] && s.tasks[0].Input? && s.tasks[0].m.kind.Data? ==> s.ready
    case _ => true
  }

  lemma {:induction false} WaitingConcat(a: seq<Msg>, b: seq<Msg>)
    ensures Waiting(a + b) == Waiting(a) + Waiting(b)
  {
    if b == [] {
      assert a + b == a;
    } else {
      var c := b[..|b| - 1];
      WaitingConcat(a, c);
      assert (a + b)[..|a + b| - 1] == a + c;
    }
  }

  lemma WaitingOne(m: Msg)
    ensures Waiting([m]) == if Waits(m.kind) then [m] else []
  {
    assert [m][..0] == [];
  }

  lemma {:induction false} WaitingSplits(ms: seq<Msg>)
    ensures Waiting(Waiting(ms)) == Waiting(ms) && Waiting(Early(ms)) == []
  {
    if ms != [] {
      var p, m := ms[..|ms| - 1], ms[|ms| - 1];
      WaitingSplits(p);
      WaitingOne(m);
      WaitingConcat(Waiting(p), [m]);
      WaitingConcat(Early(p), [m]);
      assert Waiting(ms) == (if Waits(m.kind) then Waiting(p) + [m] else Waiting(p));
      assert Early(ms) == (if Waits(m.kind) then Early(p) else Early(p) + [m]);
      hide Waiting, Early;
    }
  }

  lemma {:induction false} WaitingOrEarly(ms: seq<Msg>)
    ensures multiset(ms) == multiset(Waiting(ms)) + multiset(Early(ms))
  {
    if ms != [] {
      WaitingOrEarly(ms[..|ms| - 1]);
      assert ms == ms[..|ms| - 1] + [ms[|ms| - 1]];
    }
  }

  lemma {:induction false} InputsConcat(p: seq<Task>, q: seq<Task>)
    ensures Inputs(p + q) == Inputs(p) + Inputs(q)
  {
    if p == [] {
      assert p + q == q;
    } else {
      InputsConcat(p[1..], q);
      assert (p + q)[0] == p[0] && (p + q)[1..] == p[1..] + q;
    }
  }

  lemma {:induction false} AheadConcat(p: seq<Task>, q: seq<Task>)
    ensures Ahead(p + q) == if Handle in p then Ahead(p) else Inputs(p) + Ahead(q)
  {
    if p == [] {
      assert p + q == q;
    } else {
      AheadConcat(p[1..], q);
      assert (p + q)[0] == p[0] && (p + q)[1..] == p[1..] + q;
      assert Handle in p <==> p[0] == Handle || Handle in p[1..];
    }
  }

  lemma InputsOne(t: Task)
    ensures Inputs([t]) == if t.Input? then [t.m] else []
  {
    assert [t][1..] == [];
  }

  lemma HandleAhead(q: seq<Task>)
    requires q != [] && q[0].Handle?
    ensures Inputs(q) == Inputs(q[1..])
  {
  }

  /** A task at the end of the loop. */
  lemma Posted(s: State, n: State, t: Task, more: seq<Msg>)
    requires n == s.(ready := n.ready, tasks := s.tasks + [t], arrived := s.arrived + more)
    requires more == if t.Input? then [t.m] else []
    ensures InOrder(s) ==> InOrder(n)
    ensures Conserved(s) ==> Conserved(n)
    ensures n.ready == s.ready && HandledNext(s) ==> HandledNext(n)
  {
    InputsConcat(s.tasks, [t]);
    InputsOne(t);
    WaitingConcat(Inputs(s.tasks), more);
    WaitingConcat(s.arrived, more);
    hide Waiting, Inputs;
    PostedOrder(Waiting(s.dispatched), Waiting(s.inMsgs), Waiting(Inputs(s.tasks)), Waiting(more));
    if n.ready == s.ready && HandledNext(s) {
      PostedBehind(s, n, t);
    }
    hide HandledNext, Ahead;
    assert multiset(Inputs(s.tasks) + more) == multiset(Inputs(s.tasks)) + multiset(more);
    assert multiset(s.arrived + more) == multiset(s.arrived) + multiset(more);
  }

  lemma PostedOrder(d: seq<Msg>, w: seq<Msg>, q: seq<Msg>, m: seq<Msg>)
    ensures d + w + (q + m) == d + w + q + m
  {
  }

  lemma PostedBehind(s: State, n: State, t: Task)
    requires n.tasks == s.tasks + [t] && n.inMsgs == s.inMsgs && n.ready == s.ready && HandledNext(s)
    ensures HandledNext(n)
  {
    AheadConcat(s.tasks, [t]);
    hide Waiting, Inputs, Ahead;
    if Handle in s.tasks {
      assert Handle in n.tasks;
    }
  }

  /** The queue is handled. */
  lemma Handled(s: State, n: State)
    requires s.tasks != [] && s.tasks[0].Handle? && n == HandleInMsgs(s.(tasks := s.tasks[1..]))
    ensures InOrder(s) ==> InOrder(n)
    ensures Conserved(s) ==> Conserved(n)
    ensures HandledNext(n)
  {
    HandleAhead(s.tasks);
    WaitingSplits(s.inMsgs);
    WaitingOrEarly(s.inMsgs);
    assert Waiting([]) == [];
    var done, left := if s.ready then s.inMsgs else Early(s.inMsgs), if s.ready then [] else Waiting(s.inMsgs);
    WaitingConcat(s.dispatched, done);
    hide Waiting, Early, Inputs, Ahead;
    assert n == s.(tasks := s.tasks[1..], dispatched := s.dispatched + done, inMsgs := left);
    assert multiset(done) + multiset(left) == multiset(s.inMsgs);
    assert Waiting(done) + Waiting(left) == Waiting(s.inMsgs);
    hide HandleInMsgs;
    HandledOrder(Waiting(s.dispatched), Waiting(done), Waiting(left), Waiting(Inputs(n.tasks)));
    assert multiset(s.dispatched + done) == multiset(s.dispatched) + multiset(done);
  }

  lemma HandlingKeepsOrder(s: State)
    ensures var n := HandleInMsgs(s);
            && Waiting(n.dispatched) + Waiting(n.inMsgs) == Waiting(s.dispatched) + Waiting(s.inMsgs)
            && (s.ready ==> n.inMsgs == [] && n.dispatched == s.dispatched + s.inMsgs)
            && (!s.ready ==> Waiting(n.inMsgs) == n.inMsgs && Waiting(n.dispatched) == Waiting(s.dispatched))
  {
    WaitingSplits(s.inMsgs);
    assert Waiting([]) == [];
    WaitingConcat(s.dispatched, if s.ready then s.inMsgs else Early(s.inMsgs));
    hide Waiting, Early;
  }

  /** What is dispatched and what is put back after the first `i` rounds of the loop. */
  ghost predicate Taken(s: State, i: nat, dispatched: seq<Msg>, putBack: seq<Msg>) {
    && i <= |s.inMsgs|
    && dispatched == s.dispatched + (if s.ready then s.inMsgs[..i] else Early(s.inMsgs[..i]))
    && putBack == (if s.ready then [] else Waiting(s.inMsgs[..i]))
  }

  lemma TakenNone(s: State)
    ensures Taken(s, 0, s.dispatched, [])
  {
  }

  lemma TakenAll(s: State, dispatched: seq<Msg>, putBack: seq<Msg>)
    requires Taken(s, |s.inMsgs|, dispatched, putBack)
    ensures HandleInMsgs(s) == s.(dispatched := dispatched, inMsgs := putBack) && putBack + [] == putBack
  {
    assert s.inMsgs[..|s.inMsgs|] == s.inMsgs;
  }

  lemma TakesOneMore(s: State, i: nat, dispatched: seq<Msg>, putBack: seq<Msg>)
    requires Taken(s, i, dispatched, putBack) && i < |s.inMsgs|
    ensures var m := s.inMsgs[i];
            if s.ready || !Waits(m.kind) then Taken(s, i + 1, dispatched + [m], putBack)
            else Taken(s, i + 1, dispatched, putBack + [m])
  {
    var ms := s.inMsgs;
    assert ms[..i + 1][..i] == ms[..i] && ms[..i + 1] == ms[..i] + [ms[i]];
    assert Early(ms[..i]) + [] == Early(ms[..i]) && Waiting(ms[..i]) + [] == Waiting(ms[..i]);
    var done := if s.ready then ms[..i] else Early(ms[..i]);
    assert s.dispatched + done + [ms[i]] == s.dispatched + (done + [ms[i]]);
  }

  lemma HandledOrder(d: seq<Msg>, w: seq<Msg>, l: seq<Msg>, q: seq<Msg>)
    ensures (d + w) + l + q == d + (w + l) + q
  {
  }

  /** A message comes through the remote. */
  lemma Received(s: State, n: State)
    requires s.tasks != [] && s.tasks[0].Input? && n == Receive(s.(tasks := s.tasks[1..]), s.tasks[0].m)
    ensures InOrder(s) && HandledNext(s) ==> InOrder(n) && HandledNext(n)
  {
    var m, q := s.tasks[0].m, s.tasks[1..];
    InputFirst(s.tasks);
    WaitingConcat([m], Inputs(q));
    WaitingConcat([m], Ahead(q));
    WaitingConcat(s.dispatched, [m]);
    WaitingConcat(s.inMsgs, [m]);
    WaitingOne(m);
    InputsConcat(q, [Handle]);
    AheadConcat(q, [Handle]);
    InputsOne(Handle);
    hide Waiting, Inputs, Ahead;
    assert Inputs(q) + [] == Inputs(q);
    ReceivedOrder(Waiting(s.dispatched), Waiting(s.inMsgs), Waiting([m]), Waiting(Inputs(q)));
    assert n.inMsgs == s.inMsgs || !n.ready;
  }

  lemma InputFirst(q: seq<Task>)
    requires q != [] && q[0].Input?
    ensures Inputs(q) == [q[0].m] + Inputs(q[1..]) && Ahead(q) == [q[0].m] + Ahead(q[1..])
    ensures Handle in q <==> Handle in q[1..]
  {
  }

  lemma ReceivedConserves(s: State, n: State)
    requires s.tasks != [] && s.tasks[0].Input? && n == Receive(s.(tasks := s.tasks[1..]), s.tasks[0].m) && Conserved(s)
    ensures Conserved(n)
  {
    var m, q := s.tasks[0].m, s.tasks[1..];
    InputFirst(s.tasks);
    InputsConcat(q, [Handle]);
    InputsOne(Handle);
    hide Inputs, Ahead;
    assert Inputs(q) + [] == Inputs(q);
    assert multiset([m] + Inputs(q)) == multiset{m} + multiset(Inputs(q));
    MovedOn(multiset(s.dispatched), multiset(s.refused), multiset(s.inMsgs), multiset{m}, multiset(Inputs(q)));
    if s.ready || m.kind.CmdResult? {
      assert multiset(n.dispatched) == multiset(s.dispatched) + multiset{m};
    } else if m.kind.StartGraph? {
      assert multiset(n.refused) == multiset(s.refused) + multiset{m};
    } else {
      assert multiset(n.inMsgs) == multiset(s.inMsgs) + multiset{m};
    }
  }

  lemma MovedOn(d: multiset<Msg>, r: multiset<Msg>, w: multiset<Msg>, m: multiset<Msg>, q: multiset<Msg>)
    ensures d + r + w + (m + q) == (d + m) + r + w + q == d + (r + m) + w + q == d + r + (w + m) + q
  {
  }

  lemma ReceivedOrder(d: seq<Msg>, w: seq<Msg>, m: seq<Msg>, q: seq<Msg>)
    ensures d + w + (m + q) == d + (w + m) + q
    ensures w == [] ==> d + w + (m + q) == (d + m) + w + q
    ensures m == [] ==> d + w + (m + q) == d + w + q == (d + m) + w + q
  {
  }

  lemma AheadEnds(q: seq<Task>)
    ensures Handle in q + [Handle] && Ahead(q + [Handle]) == Ahead(q)
  {
    AheadConcat(q, [Handle]);
    if Handle !in q {
      NoHandle(q);
    }
    assert (q + [Handle])[|q|] == Handle;
  }

  lemma {:induction false} NoHandle(q: seq<Task>)
    requires Handle !in q
    ensures Ahead(q) == Inputs(q)
  {
    if q != [] {
      assert q[0] in q;
      NoHandle(q[1..]);
    }
  }

  lemma StepKeepsInv(s: State, e: Event)
    requires Inv(s) && Enabled(s, e) && Safe(s, e)
    ensures Inv(Next(s, e))
  {
    hide InOrder, HandledNext, Waiting;
    var n := Next(s, e);
    assert s.arrived + [] == s.arrived;
    match e
    case Arrive(kind) => Posted(s, n, Input(Msg(|s.arrived|, kind)), [Msg(|s.arrived|, kind)]);
    case Poke => Posted(s, n, Handle, []);
    case BecomeReady =>
      Posted(s, n, Handle, []);
      ReadyHandlesNext(s, n);
    case RunTask =>
      if s.tasks[0].Handle? {
        Handled(s, n);
      } else {
        Received(s, n);
      }
  }

  lemma ReadyHandlesNext(s: State, n: State)
    requires n.tasks == s.tasks + [Handle] && n.inMsgs == s.inMsgs && Safe(s, BecomeReady)
    ensures HandledNext(n)
  {
    AheadEnds(s.tasks);
  }

  lemma StepConserves(s: State, e: Event)
    requires Conserved(s) && Enabled(s, e)
    ensures Conserved(Next(s, e))
  {
    hide Conserved, InOrder, HandledNext, Waiting;
    var n := Next(s, e);
    assert s.arrived + [] == s.arrived;
    match e
    case Arrive(kind) => Posted(s, n, Input(Msg(|s.arrived|, kind)), [Msg(|s.arrived|, kind)]);
    case Poke => Posted(s, n, Handle, []);
    case BecomeReady => Posted(s, n, Handle, []);
    case RunTask =>
      if s.tasks[0].Handle? {
        Handled(s, n);
      } else {
        ReceivedConserves(s, n);
      }
  }

  // ----- What runs achieve -----

  ghost predicate Run(ss: seq<State>, es: seq<Event>) {
    && |ss| == |es| + 1
    && forall i {:trigger es[i]} :: 0 <= i < |es| ==> Enabled(ss[i], es[i]) && ss[i + 1] == Next(ss[i], es[i])
  }

  /** In every run each message is in one place; and in every run of safe steps what
      has to wait for a ready engine is dispatched in the order of its arrival. */
  lemma {:induction false} RunsKeepOrder(ss: seq<State>, es: seq<Event>, i: nat, ready: bool, kind: Kind)
    requires Run(ss, es) && i < |ss| && ss[0] == Moved(ready, kind)
    ensures Conserved(ss[i])
    ensures (forall j {:trigger es[j]} :: 0 <= j < i ==> Safe(ss[j], es[j])) ==>
              Inv(ss[i]) && Waiting(ss[i].dispatched) <= Waiting(ss[i].arrived)
  {
    if i == 0 {
      MovedInv(ready, kind);
    } else {
      hide Conserved, Inv, Safe, Next, Waiting, Enabled;
      RunsKeepOrder(ss, es, i - 1, ready, kind);
      assert Enabled(ss[i - 1], es[i - 1]);
      StepConserves(ss[i - 1], es[i - 1]);
      if forall j {:trigger es[j]} :: 0 <= j < i ==> Safe(ss[j], es[j]) {
        assert Safe(ss[i - 1], es[i - 1]);
        StepKeepsInv(ss[i - 1], es[i - 1]);
      }
    }
    if Inv(ss[i]) {
      DispatchedFirst(ss[i]);
    }
  }

  lemma DispatchedFirst(s: State)
    requires InOrder(s)
    ensures Waiting(s.dispatched) <= Waiting(s.arrived)
  {
    assert Waiting(s.dispatched) + Waiting(s.inMsgs) + Waiting(Inputs(s.tasks))
        == Waiting(s.dispatched) + (Waiting(s.inMsgs) + Waiting(Inputs(s.tasks)));
  }

  lemma MovedInv(ready: bool, kind: Kind)
    ensures Inv(Moved(ready, kind)) && Conserved(Moved(ready, kind))
  {
    var s := Moved(ready, kind);
    InputsOne(Handle);
    assert Waiting([]) == [] && Inputs(s.tasks) == [] && Ahead(s.tasks) == [];
    hide Waiting;
    assert Waiting([]) + Waiting(s.arrived) + Waiting([]) == Waiting(s.arrived);
  }

  /** Exactly the other kind of unsafe step runs into an assertion: the loop comes to
      a message that is no command while the engine is not ready. */
  lemma FaultsExactly(s: State, e: Event)
    requires !s.fault && Enabled(s, e) && !e.BecomeReady?
    ensures Next(s, e).fault <==> !Safe(s, e)
  {
    hide HandleInMsgs;
    if e.RunTask? && s.tasks[0].Handle? {
      HandlingFaultless(s.(tasks := s.tasks[1..]));
    }
  }

  lemma HandlingFaultless(s: State)
    ensures HandleInMsgs(s).fault == s.fault
  {
  }

  /** A loop runs its first `k` tasks. */
  function RunTasks(s: State, k: nat): State
    requires k <= |s.tasks|
    decreases k
  {
    if k == 0 then s
    else
      var n := Next(s, RunTask);
      assert |n.tasks| >= |s.tasks| - 1;
      RunTasks(n, k - 1)
  }

  lemma {:induction false} RunsAhead(s: State, q: seq<Task>)
    requires s.ready && Handle !in q && q <= s.tasks
    ensures RunTasks(s, |q|) == s.(tasks := s.tasks[|q|..], dispatched := s.dispatched + Inputs(q))
    decreases |q|
  {
    if q == [] {
      assert s.dispatched + Inputs(q) == s.dispatched && s.tasks[0..] == s.tasks;
    } else {
      assert q[0] in q && s.tasks[0] == q[0];
      var n := Next(s, RunTask);
      RunsAhead(n, q[1..]);
      assert s.dispatched + [q[0].m] + Inputs(q[1..]) == s.dispatched + Inputs(q);
      assert n.tasks[|q| - 1..] == s.tasks[|q|..];
    }
  }

  /** The tasks before the next handling. */
  function Prefix(q: seq<Task>): (p: seq<Task>)
    ensures p <= q && Handle !in p && Inputs(p) == Ahead(q)
    ensures |p| < |q| ==> q[|p|] == Handle
  {
    if q == [] || q[0].Handle? then []
    else
      var p := [q[0]] + Prefix(q[1..]);
      assert p[1..] == Prefix(q[1..]);
      p
  }

  lemma {:induction false} WaitingFrom(ms: seq<Msg>, k: nat)
    requires forall i :: 0 <= i < |ms| ==> ms[i].n == k + i
    ensures forall m :: m in Waiting(ms) ==> k <= m.n < k + |ms|
    ensures forall i, j :: 0 <= i < j < |Waiting(ms)| ==> Waiting(ms)[i].n < Waiting(ms)[j].n
  {
    if ms != [] {
      WaitingFrom(ms[..|ms| - 1], k);
    }
  }

  /** Exactly when becoming ready is not safe does the loop dispatch messages out of
      order before it comes to the queue. */
  lemma OvertakenExactly(s: State)
    requires Inv(s) && !s.ready
    ensures var r := Next(s, BecomeReady);
            var k := |Prefix(r.tasks)|;
            k <= |r.tasks| && (InOrder(RunTasks(r, k)) <==> Safe(s, BecomeReady))
  {
    var r := Next(s, BecomeReady);
    var p := Prefix(r.tasks);
    AheadEnds(s.tasks);
    RunsAhead(r, p);
    var o, rest := RunTasks(r, |p|), r.tasks[|p|..];
    assert r.tasks == p + rest;
    InputsConcat(p, rest);
    InputsConcat(s.tasks, [Handle]);
    InputsOne(Handle);
    WaitingConcat(Inputs(p), Inputs(rest));
    WaitingConcat(s.dispatched, Inputs(p));
    WaitingFrom(s.arrived, 0);
    hide Inputs, Prefix, RunTasks;
    var d, w, a, t := Waiting(s.dispatched), Waiting(s.inMsgs), Waiting(Inputs(p)), Waiting(Inputs(rest));
    assert Inputs(s.tasks) + [] == Inputs(s.tasks);
    assert d + w + (a + t) == Waiting(s.arrived);
    Swapped(d, w, a, t);
  }

  lemma Swapped(d: seq<Msg>, w: seq<Msg>, a: seq<Msg>, t: seq<Msg>)
    requires var l := d + w + (a + t); forall i, j :: 0 <= i < j < |l| ==> l[i].n < l[j].n
    ensures (d + a) + w + t == d + w + (a + t) <==> w == [] || a == []
  {
    var l := d + w + (a + t);
    if w != [] && a != [] {
      assert l[|d|] == w[0] && l[|d| + |w|] == a[0];
      assert ((d + a) + w + t)[|d|] == a[0];
    }
  }

  // ----- Runs that reach what goes wrong -----

  const M0 := Msg(0, StartGraph)
  const M1 := Msg(1, Command)
  const M2 := Msg(2, Command)

  /** The stages of a loop in which a command is put back while the next one arrives. */
  function Stage(i: nat): State {
    match i
    case 0 => Moved(false, StartGraph)
    case 1 => State(false, [], [], [M0], [M0], [], false)
    case 2 => State(false, [], [Input(M1)], [M0, M1], [M0], [], false)
    case 3 => State(false, [M1], [Handle], [M0, M1], [M0], [], false)
    case 4 => State(false, [M1], [], [M0, M1], [M0], [], false)
    case 5 => State(false, [M1], [Input(M2)], [M0, M1, M2], [M0], [], false)
    case 6 => State(true, [M1], [Input(M2), Handle], [M0, M1, M2], [M0], [], false)
    case _ => State(true, [M1], [Handle], [M0, M1, M2], [M0, M2], [], false)
  }

  lemma HandlesOne(s: State, m: Msg)
    requires !s.ready && s.inMsgs == [m]
    ensures HandleInMsgs(s) == if Waits(m.kind) then s else s.(dispatched := s.dispatched + [m], inMsgs := [])
  {
    WaitingOne(m);
    assert [m][..0] == [] && s.dispatched + [] == s.dispatched && [] + [m] == [m];
    assert Early([m]) == (if Waits(m.kind) then [] else [m]);
  }

  lemma PutsBack()
    ensures Next(Stage(0), RunTask) == Stage(1) && Next(Stage(1), Arrive(Command)) == Stage(2)
    ensures Next(Stage(2), RunTask) == Stage(3) && Next(Stage(3), RunTask) == Stage(4)
  {
    HandlesOne(Stage(0).(tasks := []), M0);
    HandlesOne(Stage(3).(tasks := []), M1);
    hide HandleInMsgs;
    assert [Handle][1..] == [] && [Input(M1)][1..] == [];
  }

  lemma Overtaking()
    ensures Next(Stage(4), Arrive(Command)) == Stage(5) && Next(Stage(5), BecomeReady) == Stage(6)
    ensures Next(Stage(6), RunTask) == Stage(7) && !Safe(Stage(5), BecomeReady)
  {
    WaitingOne(M1);
    WaitingOne(M2);
    assert Ahead(Stage(5).tasks) == [M2] && [Input(M2), Handle][1..] == [Handle];
    hide Waiting, Ahead, HandleInMsgs;
  }

  /** A command that was put back waits while the next one is in the loop; if the engine
      becomes ready now, that one is dispatched first. */
  lemma CommandOvertakes() returns (ss: seq<State>)
    ensures Run(ss, [RunTask, Arrive(Command), RunTask, RunTask, Arrive(Command), BecomeReady, RunTask])
    ensures ss[0] == Moved(false, StartGraph) && !Safe(ss[5], BecomeReady)
    ensures ss[7].dispatched == [M0, M2] && ss[7].inMsgs == [M1]
  {
    PutsBack();
    Overtaking();
    hide Next;
    ss := [Stage(0), Stage(1), Stage(2), Stage(3), Stage(4), Stage(5), Stage(6), Stage(7)];
  }

  /** A message that is no command comes through the remote before the engine is ready. */
  lemma DataFails() returns (ss: seq<State>)
    ensures Run(ss, [Arrive(Data), RunTask, RunTask]) && ss[0] == Moved(false, StartGraph)
    ensures !Safe(ss[2], RunTask) && ss[3].fault
  {
    var m0, m1 := Msg(0, StartGraph), Msg(1, Data);
    var a := Moved(false, StartGraph);
    var b := State(false, [m0], [Handle, Input(m1)], [m0, m1], [], [], false);
    var c := State(false, [], [Input(m1)], [m0, m1], [m0], [], false);
    var d := State(false, [m1], [Handle], [m0, m1], [m0], [], true);
    WaitingOne(m0);
    assert Early([m0]) == [] + [m0] by {
      assert [m0][..0] == [];
    }
    hide Waiting, Early;
    assert Next(a, Arrive(Data)) == b && Next(b, RunTask) == c && Next(c, RunTask) == d;
    hide Next;
    ss := [a, b, c, d];
  }

  // ----- The engine -----

  class Engine {
    var isReady: bool
    var inMsgs: seq<Msg>
    var tasks: seq<Task>
    ghost var arrived: seq<Msg>
    ghost var dispatched: seq<Msg>
    ghost var refused: seq<Msg>
    ghost var fault: bool

    /** The engine that a connection has just moved to with its first message. */
    constructor (isReady: bool, kind: Kind)
      ensures Now() == Moved(isReady, kind) && Inv(Now()) && Conserved(Now())
    {
      this.isReady, inMsgs, tasks := isReady, [Msg(0, kind)], [Handle];
      arrived, dispatched, refused, fault := [Msg(0, kind)], [], [], false;
      new;
      MovedInv(isReady, kind);
    }

    ghost function Now(): State
      reads this
    {
      State(isReady, inMsgs, tasks, arrived, dispatched, refused, fault)
    }

    /** `ten_engine_handle_in_msgs_sync`: the queue is swapped out, and what has to
        wait goes back to its front. */
    method HandleInMsgsSync()
      modifies this`inMsgs, this`dispatched
      ensures Now() == HandleInMsgs(old(Now()))
      ensures Waiting(dispatched) + Waiting(inMsgs) == old(Waiting(dispatched) + Waiting(inMsgs))
      ensures isReady ==> inMsgs == [] && dispatched == old(dispatched) + old(inMsgs)
      ensures !isReady ==> Waiting(inMsgs) == inMsgs && Waiting(dispatched) == old(Waiting(dispatched))
    {
      ghost var s := Now();
      HandlingKeepsOrder(s);
      TakenNone(s);
      hide Waiting, Early, Taken, HandleInMsgs;
      var msgs, i := inMsgs, 0;
      inMsgs := [];
      var putBack: seq<Msg> := [];
      while i < |msgs|
        invariant i <= |msgs| && Taken(s, i, dispatched, putBack) && inMsgs == []
      {
        TakesOneMore(s, i, dispatched, putBack);
        if isReady || !Waits(msgs[i].kind) {
          dispatched := dispatched + [msgs[i]];
        } else {
          putBack := putBack + [msgs[i]];
        }
        i := i + 1;
      }
      TakenAll(s, dispatched, putBack);
      inMsgs := putBack + inMsgs;
    }

    /** `ten_engine_append_to_in_msgs_queue` */
    method AppendToInMsgs(m: Msg)
      modifies this`inMsgs, this`tasks, this`fault
      ensures Now() == Append(old(Now()), m) && inMsgs == old(inMsgs) + [m] && tasks == old(tasks) + [Handle]
    {
      fault := fault || m.kind.Data?;
      inMsgs := inMsgs + [m];
      tasks := tasks + [Handle];
    }

    /** `ten_engine_receive_msg_from_remote`: a ready engine dispatches the message. One
        that is not ready refuses a command to start a graph, dispatches a result, and
        makes anything else wait in its queue. */
    method ReceiveFromRemote(m: Msg)
      modifies this
      ensures Now() == Receive(old(Now()), m) && isReady == old(isReady) && arrived == old(arrived)
      ensures dispatched == old(dispatched) + (if isReady || m.kind == CmdResult then [m] else [])
      ensures refused == old(refused) + (if !isReady && m.kind == StartGraph then [m] else [])
      ensures if !isReady && m.kind in {Command, Data} then inMsgs == old(inMsgs) + [m] && tasks == old(tasks) + [Handle]
              else inMsgs == old(inMsgs) && tasks == old(tasks)
    {
      if isReady {
        dispatched := dispatched + [m];
      } else {
        match m.kind {
          case StartGraph => refused := refused + [m];
          case CmdResult => dispatched := dispatched + [m];
          case Command => AppendToInMsgs(m);
          case Data => AppendToInMsgs(m);
        }
      }
    }

    /** `ten_engine_on_extension_thread_is_ready`, for the last of them. */
    method OnAllReady()
      requires !isReady
      modifies this`isReady, this`tasks
      ensures Now() == Next(old(Now()), BecomeReady) && isReady && tasks == old(tasks) + [Handle]
      ensures old(Inv(Now()) && Safe(Now(), BecomeReady)) ==> Inv(Now())
    {
      if Inv(Now()) && Safe(Now(), BecomeReady) {
        StepKeepsInv(Now(), BecomeReady);
      }
      hide Inv, Safe;
      isReady := true;
      tasks := tasks + [Handle];
    }

    /** The loop of the engine runs its first task. */
    method RunFirstTask()
      requires tasks != []
      modifies this
      ensures Now() == Next(old(Now()), RunTask)
      ensures var t := old(tasks[0]);
              t.Input? ==>
                && dispatched == old(dispatched) + (if isReady || t.m.kind == CmdResult then [t.m] else [])
                && refused == old(refused) + (if !isReady && t.m.kind == StartGraph then [t.m] else [])
      ensures old(Conserved(Now())) ==> Conserved(Now())
      ensures old(Inv(Now()) && Safe(Now(), RunTask)) ==> Inv(Now())
    {
      if Conserved(Now()) {
        StepConserves(Now(), RunTask);
      }
      if Inv(Now()) && Safe(Now(), RunTask) {
        StepKeepsInv(Now(), RunTask);
      }
      hide Inv, Safe, Conserved, Waiting;
      var t := tasks[0];
      tasks := tasks[1..];
      match t {
        case Handle => HandleInMsgsSync();
        case Input(m) => ReceiveFromRemote(m);
      }
    }
  }
}
