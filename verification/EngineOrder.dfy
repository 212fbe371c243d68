/**
 From arrival to dispatch: a connection moves to an engine that may not be ready.
 The state machine of the connection and that of the engine's queue run together;
 a message posted to the loop of the engine is a task of both.
 */
module EngineOrder {
  import M = Migration
  import E = EngineQueues

  datatype State = State(m: M.State, e: E.State)

  /** `Move`: a step of the connection, its protocol or a loop; `Engine`: the engine
      becomes ready, handles its queue, or is made to. */
  datatype Step = Move(x: M.Step) | Engine(ev: E.Event)

  /** A connection was accepted; the engine is ready or not, and knows nothing of it. */
  function Start(close: M.Close, ready: bool): State
    requires close.Waiting? ==> close.ahead == 0
  {
    State(M.Accepted(close), E.State(ready, [], [], [], [], [], false))
  }

  predicate AtEngine(m: M.State) {
    m.conn.attach != M.ToApp
  }

  /** The messages in the loops. */
  function Posted(m: M.State): seq<M.Msg> {
    M.Inputs(m.app) + M.Inputs(m.eng)
  }

  /** The messages for the engine that have left the thread of the protocol, in order. */
  function Given(m: M.State): seq<M.Msg> {
    M.ForEngine(m.log.handed) + Posted(m)
  }

  function Labels(ms: seq<M.Msg>, kind: M.Msg -> E.Kind): (r: seq<E.Msg>)
    ensures |r| == |ms| && forall i :: 0 <= i < |ms| ==> r[i] == E.Msg(i, kind(ms[i]))
  {
    seq(|ms|, i requires 0 <= i < |ms| => E.Msg(i, kind(ms[i])))
  }

  /** Is `x` the running of a message by one of the loops? */
  predicate RunsInput(m: M.State, x: M.Step) {
    || (x.AppTask? && m.app != [] && m.app[0].Input?)
    || (x.EngTask? && m.eng != [] && m.eng[0].Input?)
  }

  /** A message that a loop runs for a connection at the engine is the one the engine's
      loop has come to. */
  predicate Enabled(s: State, st: Step) {
    match st
    case Move(x) =>
      M.Enabled(s.m, x) && (AtEngine(s.m) && RunsInput(s.m, x) ==> s.e.tasks != [] && s.e.tasks[0].Input?)
    case Engine(ev) =>
      && !ev.Arrive? && E.Enabled(s.e, ev) && (AtEngine(s.m) || ev.BecomeReady?)
      && (ev.RunTask? ==> s.e.tasks[0].Handle?)
  }

  function PostAll(e: E.State, ms: seq<M.Msg>, kind: M.Msg -> E.Kind): E.State
    decreases |ms|
  {
    if ms == [] then e else PostAll(E.Next(e, E.Arrive(kind(ms[0]))), ms[1..], kind)
  }

  /** What a step of the connection to the state `n` does to the engine's queue and loop. */
  function Follow(s: State, x: M.Step, n: M.State, kind: M.Msg -> E.Kind): E.State
    requires Enabled(s, Move(x))
  {
    if !AtEngine(s.m) then
      if AtEngine(n) && n.inMsgs != [] then E.Moved(s.e.ready, kind(n.inMsgs[0])) else s.e
    else if RunsInput(s.m, x) then E.Next(s.e, E.RunTask)
    else if |Posted(s.m)| <= |Posted(n)| then PostAll(s.e, Posted(n)[|Posted(s.m)|..], kind)
    else s.e
  }

  function Next(s: State, st: Step, kind: M.Msg -> E.Kind): State
    requires Enabled(s, st)
  {
    match st
    case Move(x) =>
      var n := M.Next(s.m, x);
      State(n, Follow(s, x, n, kind))
    case Engine(ev) => s.(e := E.Next(s.e, ev))
  }

  ghost predicate Safe(s: State, st: Step) {
    match st
    case Move(x) => M.Safe(s.m, x) && (AtEngine(s.m) && RunsInput(s.m, x) ==> E.Safe(s.e, E.RunTask))
    case Engine(ev) => AtEngine(s.m) ==> E.Safe(s.e, ev)
  }

  /** The engine knows exactly the messages it was given, and its loop has those that
      the loops of the connection have. */
  ghost predicate Coupled(m: M.State, e: E.State, kind: M.Msg -> E.Kind) {
    if AtEngine(m) then
      && e.arrived == Labels(Given(m), kind)
      && E.Inputs(e.tasks) == Labels(Given(m), kind)[|M.ForEngine(m.log.handed)|..]
    else
      m.log.delivered == []
  }

  ghost predicate Inv(s: State, kind: M.Msg -> E.Kind) {
    M.Inv(s.m) && Coupled(s.m, s.e, kind) && (AtEngine(s.m) ==> E.Inv(s.e) && E.Conserved(s.e))
  }

  // ----- The side of the connection -----

  lemma AsyncPosts(m: M.State, x: M.Msg)
    requires M.Ordered(m) && !m.conn.closing
    ensures var n := M.OnInputAsync(m, x);
            Posted(n) == Posted(m) || Posted(n) == Posted(m) + [x]
  {
    M.InputsAppend(if M.OnEngineLoop(m) then m.eng else m.app, M.Input(x));
    hide M.Inputs;
  }

  /** While the connection is at the engine, a step that runs no message leaves those
      in the loops where they are, and may only add some behind them. */
  lemma OthersWait(m: M.State, x: M.Step)
    requires M.Inv(m) && M.Enabled(m, x) && M.Safe(m, x) && AtEngine(m) && !RunsInput(m, x)
    ensures var n := M.Next(m, x);
            n.log.handed == m.log.handed && Posted(m) <= Posted(n)
  {
    M.ShapeOrdered(m);
    match x
    case Arrive(y) =>
      var a := m.(log := m.log.(arrivals := m.log.arrivals + [y]));
      AsyncPosts(a, y);
      M.AsyncConn(a, y);
      hide M.Shape, M.OnInputAsync, M.Inputs;
    case ImplTask => NoticePosts(m);
    case AppTask(route) => TaskWaits(m, false, route);
    case EngTask => TaskWaits(m, true, M.Ignored);
    case AppTold =>
    case CloseTask =>
    case Sweep => hide M.Shape;
  }

  lemma NoticePosts(m: M.State)
    requires M.Inv(m) && m.side.impl != [] && AtEngine(m)
    ensures var n := M.Next(m, M.ImplTask);
            n.log.handed == m.log.handed && Posted(m) <= Posted(n)
  {
    NoticeIsDone(m);
    hide M.Shape, M.AllAsync, M.Inputs, M.Inv, M.Moving, M.Unheld, M.Frozen;
    M.ThawedShape(m);
    var t := M.Thawed(m);
    M.AllAsyncKeeps(t, m.side.pending);
    var n := M.Next(m, M.ImplTask);
    assert n == M.AllAsync(t, m.side.pending);
    assert M.Queued(n) == Posted(n) && M.Queued(t) == Posted(m);
  }

  lemma NoticeIsDone(m: M.State)
    requires M.Inv(m) && m.side.impl != [] && AtEngine(m)
    ensures M.Shape(m) && !m.side.impl[0] && !m.conn.closing
  {
  }

  lemma TaskWaits(m: M.State, engineLoop: bool, route: M.Route)
    requires M.Inv(m) && M.Runnable(m, engineLoop) && AtEngine(m) && !M.Head(m, engineLoop).Input?
    ensures var n := M.RunTask(M.Popped(m, engineLoop), M.Head(m, engineLoop), engineLoop, route);
            n.log.handed == m.log.handed && Posted(m) == Posted(n)
  {
    var p, t := M.Popped(m, engineLoop), M.Head(m, engineLoop);
    if t.ConnCleaned? {
      M.TaskLoops(m, engineLoop);
      M.ConnCleanedShape(m);
      assert false;
    }
    M.RunTaskCases(p, t, engineLoop, route);
    hide M.RunTask, M.Shape, M.Books;
  }

  /** A message that a loop runs is the first of those that wait, and is the engine's. */
  lemma InputIsFirst(m: M.State, x: M.Step)
    requires M.Inv(m) && M.Enabled(m, x) && AtEngine(m) && RunsInput(m, x)
    ensures var n := M.Next(m, x);
            && Posted(m) != [] && Posted(n) == Posted(m)[1..]
            && M.ForEngine(n.log.handed) == M.ForEngine(m.log.handed) + [Posted(m)[0]]
  {
    var engineLoop := x.EngTask?;
    var t, route := M.Head(m, engineLoop), if engineLoop then M.Ignored else x.route;
    AtRemote(m, engineLoop);
    hide M.Inv;
    M.HandedAppend(m.log.handed, M.Handed(t.m, true));
    TakenFirst(m, engineLoop);
    RemoteRuns(m, engineLoop, route);
    hide M.RunTask, M.ForEngine, M.Inputs;
  }

  lemma AtRemote(m: M.State, engineLoop: bool)
    requires M.Inv(m) && M.Runnable(m, engineLoop) && M.Head(m, engineLoop).Input? && AtEngine(m)
    ensures m.conn.attach == M.ToRemote && m.conn.mig == M.Done && !m.conn.closing && engineLoop == M.OnEngineLoop(m) && M.Ordered(m)
  {
    M.InputShape(m, engineLoop);
  }

  /** The remote takes the message to the engine. */
  lemma RemoteRuns(m: M.State, engineLoop: bool, route: M.Route)
    requires m.conn.attach == M.ToRemote && m.conn.mig == M.Done && !m.conn.closing && engineLoop == M.OnEngineLoop(m)
    requires M.Runnable(m, engineLoop) && M.Head(m, engineLoop).Input?
    ensures var p, t := M.Popped(m, engineLoop), M.Head(m, engineLoop);
            var n := M.RunTask(p, t, engineLoop, route);
            && n.app == p.app && n.eng == p.eng && n.log.handed == m.log.handed + [M.Handed(t.m, true)]
  {
    hide M.AppHandles;
  }

  lemma TakenFirst(m: M.State, engineLoop: bool)
    requires M.Runnable(m, engineLoop) && M.Head(m, engineLoop).Input? && M.Ordered(m) && engineLoop == M.OnEngineLoop(m)
    ensures Posted(m) == [M.Head(m, engineLoop).m] + Posted(M.Popped(m, engineLoop))
  {
  }

  /** A connection that comes to the engine brings its first message and no other. */
  lemma ComesAlone(m: M.State, x: M.Step)
    requires M.Inv(m) && M.Enabled(m, x) && M.Safe(m, x) && !AtEngine(m) && m.log.delivered == []
    ensures var n := M.Next(m, x);
            && n.log.delivered == []
            && (AtEngine(n) ==> |n.inMsgs| == 1 && Posted(n) == [] && M.ForEngine(n.log.handed) == n.inMsgs)
  {
    match x
    case Arrive(y) => M.AsyncReaches(m.(log := m.log.(arrivals := m.log.arrivals + [y])), y); AsyncLogs(m, y);
    case ImplTask =>
      M.ResumeReaches(m.(side := m.side.(impl := m.side.impl[1..])), m.side.impl[0]);
      ResumeLogs(m.(side := m.side.(impl := m.side.impl[1..])), m.side.impl[0]);
    case AppTask(route) => AppBrings(m, route);
    case EngTask => EngineBrings(m);
    case AppTold =>
    case CloseTask =>
    case Sweep => M.HandleableShape(m);
  }

  lemma AsyncLogs(m: M.State, y: M.Msg)
    ensures M.Next(m, M.Arrive(y)).log.delivered == m.log.delivered
  {
    hide M.OnEngineLoop;
  }

  lemma {:induction false} AllAsyncLogs(m: M.State, ms: seq<M.Msg>)
    ensures M.AllAsync(m, ms).log.delivered == m.log.delivered
    decreases |ms|
  {
    hide M.OnEngineLoop;
    if ms != [] {
      AllAsyncLogs(M.OnInputAsync(m, ms[0]), ms[1..]);
    }
  }

  lemma ResumeLogs(m: M.State, reset: bool)
    ensures M.Resume(m, reset).log.delivered == m.log.delivered
  {
    var t := m.(side := m.side.(ext := if reset then M.Init else M.Done, pending := []), refs := m.refs - 1);
    AllAsyncLogs(t, m.side.pending);
    hide M.AllAsync, M.OnEngineLoop;
  }

  lemma EngineBrings(m: M.State)
    requires m.eng != [] && M.Inv(m) && !AtEngine(m) && m.log.delivered == []
    ensures var n := M.Next(m, M.EngTask);
            n.log.delivered == [] && |n.inMsgs| == 1 && Posted(n) == [] && M.ForEngine(n.log.handed) == n.inMsgs
  {
    assert m.eng[0].ConnCleaned?;
    M.StepKeepsInv(m, M.EngTask);
    M.ConnCleanedShape(m);
    M.RunTaskCases(M.Popped(m, true), m.eng[0], true, M.Ignored);
    M.ConnCleanedQueues([M.ConnCleaned(0)]);
    hide M.RunTask, M.OnConnectionCleaned, M.Shape, M.Inputs, M.ForEngine, M.Moving;
    var n := M.Next(m, M.EngTask);
    assert m.app == [];
    assert M.Inputs([]) == [];
    assert [] + n.inMsgs + [] == n.inMsgs;
  }

  lemma AppBrings(m: M.State, route: M.Route)
    requires M.Enabled(m, M.AppTask(route)) && M.Inv(m) && M.Safe(m, M.AppTask(route))
    requires !AtEngine(m) && m.log.delivered == []
    ensures var n := M.Next(m, M.AppTask(route));
            && n.log.delivered == []
            && (AtEngine(n) ==> |n.inMsgs| == 1 && Posted(n) == [] && M.ForEngine(n.log.handed) == n.inMsgs)
  {
    AppGives(m, route);
    M.StepKeepsInv(m, M.AppTask(route));
    var n := M.Next(m, M.AppTask(route));
    hide M.Next, M.Shape, M.Inputs, M.Moving, M.ForEngine, M.Safe, M.Enabled;
    assert AtEngine(n) ==> [] + n.inMsgs + [] == n.inMsgs;
  }

  lemma AppGives(m: M.State, route: M.Route)
    requires M.Enabled(m, M.AppTask(route)) && M.Inv(m) && M.Safe(m, M.AppTask(route)) && !AtEngine(m)
    ensures var n := M.Next(m, M.AppTask(route));
            && n.log.delivered == m.log.delivered
            && (AtEngine(n) ==> |n.inMsgs| == 1 && Posted(n) == [] && M.Moving(n.eng) == [])
  {
    if m.app[0].Input? && !m.conn.closing {
      M.InputShape(m, false);
      assert !route.StopGraph? && m.close != M.Waiting(0);
      hide M.Inv, M.Next, M.Safe, M.Enabled;
      FirstGives(m, route);
    } else {
      M.TaskLoops(m, false);
      M.HandleableShape(m);
      hide M.Inv, M.Next, M.Shape, M.Safe, M.Enabled;
      OtherGives(m, route);
    }
  }

  lemma OtherGives(m: M.State, route: M.Route)
    requires M.Runnable(m, false) && !AtEngine(m) && m.inMsgs == [] && !m.app[0].ConnCleaned?
    requires m.app[0].Input? ==> m.conn.closing
    ensures var n := M.Next(m, M.AppTask(route));
            n.log.delivered == m.log.delivered && !AtEngine(n)
  {
    M.RunTaskCases(M.Popped(m, false), m.app[0], false, route);
    hide M.RunTask;
  }

  lemma FirstGives(m: M.State, route: M.Route)
    requires M.Sent(m) && m.close != M.Waiting(0) && !route.StopGraph?
    ensures var n := M.Next(m, M.AppTask(route));
            && n.log.delivered == m.log.delivered
            && (AtEngine(n) ==> |n.inMsgs| == 1 && Posted(n) == [] && M.Moving(n.eng) == [])
  {
    M.FirstResults(m, route);
    FirstRuns(m, route);
    SharedEmpty();
    hide M.AppHandles, M.Next, M.Inputs, M.Moving;
  }

  lemma FirstRuns(m: M.State, route: M.Route)
    requires M.Sent(m) && m.close != M.Waiting(0)
    ensures M.Next(m, M.AppTask(route)) == M.AppHandles(M.AtHandler(m), m.app[0].m, route)
  {
    hide M.AppHandles;
  }

  lemma SharedEmpty()
    ensures M.Inputs([M.Cleaned(false), M.HandleMsgs]) == [] && M.Inputs([]) == [] && M.Moving([]) == []
  {
    M.InputsAppend([M.Cleaned(false)], M.HandleMsgs);
    assert [M.Cleaned(false)] + [M.HandleMsgs] == [M.Cleaned(false), M.HandleMsgs];
  }

  // ----- The side of the engine -----

  /** Messages posted to the loop of the engine arrive there in their order. */
  lemma {:induction false} PostAllKeeps(e: E.State, ms: seq<M.Msg>, kind: M.Msg -> E.Kind)
    requires E.Inv(e) && E.Conserved(e)
    ensures var r := PostAll(e, ms, kind);
            && E.Inv(r) && E.Conserved(r) && r.dispatched == e.dispatched
            && r.arrived == e.arrived + Tail(|e.arrived|, ms, kind)
            && E.Inputs(r.tasks) == E.Inputs(e.tasks) + Tail(|e.arrived|, ms, kind)
    decreases |ms|
  {
    hide E.Inv, E.Conserved, E.Inputs, E.Next, Tail;
    if ms == [] {
      assert e.arrived + [] == e.arrived && E.Inputs(e.tasks) + [] == E.Inputs(e.tasks);
    } else {
      var x := E.Msg(|e.arrived|, kind(ms[0]));
      var n := E.Next(e, E.Arrive(kind(ms[0])));
      PostOne(e, kind(ms[0]));
      PostAllKeeps(n, ms[1..], kind);
      var rest := Tail(|n.arrived|, ms[1..], kind);
      TailFirst(|e.arrived|, ms, kind);
      assert e.arrived + [x] + rest == e.arrived + ([x] + rest);
      assert E.Inputs(e.tasks) + [x] + rest == E.Inputs(e.tasks) + ([x] + rest);
    }
  }

  lemma PostOne(e: E.State, kind: E.Kind)
    requires E.Inv(e) && E.Conserved(e)
    ensures var n, x := E.Next(e, E.Arrive(kind)), E.Msg(|e.arrived|, kind);
            && E.Inv(n) && E.Conserved(n) && n.dispatched == e.dispatched
            && n.arrived == e.arrived + [x] && E.Inputs(n.tasks) == E.Inputs(e.tasks) + [x]
  {
    E.StepKeepsInv(e, E.Arrive(kind));
    E.StepConserves(e, E.Arrive(kind));
    hide E.Inv, E.Conserved, E.Inputs;
    var x := E.Msg(|e.arrived|, kind);
    E.InputsConcat(e.tasks, [E.Input(x)]);
    E.InputsOne(E.Input(x));
  }

  lemma TailFirst(k: nat, ms: seq<M.Msg>, kind: M.Msg -> E.Kind)
    requires ms != []
    ensures Tail(k, ms, kind) == [E.Msg(k, kind(ms[0]))] + Tail(k + 1, ms[1..], kind)
  {
  }

  /** The labels of messages from number `k` on. */
  function Tail(k: nat, ms: seq<M.Msg>, kind: M.Msg -> E.Kind): (r: seq<E.Msg>)
    ensures |r| == |ms| && forall i :: 0 <= i < |ms| ==> r[i] == E.Msg(k + i, kind(ms[i]))
  {
    seq(|ms|, i requires 0 <= i < |ms| => E.Msg(k + i, kind(ms[i])))
  }

  lemma LabelsMore(ms: seq<M.Msg>, more: seq<M.Msg>, k: nat, kind: M.Msg -> E.Kind)
    requires k <= |ms|
    ensures Labels(ms + more, kind) == Labels(ms, kind) + Tail(|ms|, more, kind)
    ensures Labels(ms + more, kind)[k..] == Labels(ms, kind)[k..] + Tail(|ms|, more, kind)
  {
  }

  /** The loop of the engine runs its first task. */
  lemma RunKeeps(e: E.State)
    requires E.Inv(e) && E.Conserved(e) && e.tasks != [] && E.Safe(e, E.RunTask)
    ensures var n := E.Next(e, E.RunTask);
            && E.Inv(n) && E.Conserved(n) && n.arrived == e.arrived
            && E.Inputs(n.tasks) == if e.tasks[0].Input? then E.Inputs(e.tasks)[1..] else E.Inputs(e.tasks)
    ensures e.tasks[0].Input? ==> E.Inputs(e.tasks) != []
  {
    E.StepKeepsInv(e, E.RunTask);
    E.StepConserves(e, E.RunTask);
    RunTakes(e);
    hide E.Inv, E.Conserved, E.Inputs, E.Safe, E.Next;
  }

  lemma RunTakes(e: E.State)
    requires e.tasks != []
    ensures var n := E.Next(e, E.RunTask);
            n.arrived == e.arrived && E.Inputs(n.tasks) == if e.tasks[0].Input? then E.Inputs(e.tasks)[1..] else E.Inputs(e.tasks)
    ensures e.tasks[0].Input? ==> E.Inputs(e.tasks) != []
  {
    var q := e.tasks[1..];
    E.InputsConcat(q, [E.Handle]);
    E.InputsOne(E.Handle);
    if e.tasks[0].Handle? {
      E.HandleAhead(e.tasks);
      HandlingAside(e.(tasks := q));
      hide E.HandleInMsgs, E.Inputs;
    } else {
      E.InputFirst(e.tasks);
      hide E.Inputs;
      assert E.Inputs(q) + [] == E.Inputs(q);
    }
  }

  lemma HandlingAside(e: E.State)
    ensures E.HandleInMsgs(e).tasks == e.tasks && E.HandleInMsgs(e).arrived == e.arrived
  {
  }

  // ----- Both together -----

  /** Every step that is safe for both sides keeps the invariants of both. */
  lemma StepKeepsInv(s: State, st: Step, kind: M.Msg -> E.Kind)
    requires Inv(s, kind) && Enabled(s, st) && Safe(s, st)
    ensures Inv(Next(s, st, kind), kind)
  {
    hide M.Inv, M.Next, M.Safe, M.Enabled, E.Inv, E.Conserved, E.Safe, Posted, Given;
    match st
    case Move(x) =>
      M.StepKeepsInv(s.m, x);
      if !AtEngine(s.m) {
        Comes(s, x, kind);
      } else {
        Stays(s, x);
        if RunsInput(s.m, x) {
          InputCoupled(s, x, kind);
        } else {
          OthersCoupled(s, x, kind);
        }
      }
    case Engine(ev) => EngineCoupled(s, ev, kind);
  }

  lemma Stays(s: State, x: M.Step)
    requires M.Inv(s.m) && M.Enabled(s.m, x) && M.Safe(s.m, x) && AtEngine(s.m)
    ensures AtEngine(M.Next(s.m, x))
  {
    M.StepAdvances(s.m, x);
    hide M.Inv, M.Next, M.Safe, M.Enabled;
  }

  lemma Comes(s: State, x: M.Step, kind: M.Msg -> E.Kind)
    requires Inv(s, kind) && Enabled(s, Move(x)) && Safe(s, Move(x)) && !AtEngine(s.m) && M.Inv(M.Next(s.m, x))
    ensures Inv(Next(s, Move(x), kind), kind)
  {
    ComesAlone(s.m, x);
    hide M.Inv, M.Next, M.Safe, M.Enabled, M.ForEngine, Posted, E.Inv, E.Conserved, E.Inputs, E.Moved, E.Safe, Labels, RunsInput;
    var n := M.Next(s.m, x);
    if AtEngine(n) {
      MovedCoupled(s.e.ready, n.inMsgs, kind);
      assert n.inMsgs + [] == n.inMsgs;
    }
  }

  lemma MovedCoupled(ready: bool, ms: seq<M.Msg>, kind: M.Msg -> E.Kind)
    requires |ms| == 1
    ensures var e := E.Moved(ready, kind(ms[0]));
            && E.Inv(e) && E.Conserved(e)
            && e.arrived == Labels(ms, kind) && E.Inputs(e.tasks) == [] == Labels(ms, kind)[1..]
  {
    E.MovedInv(ready, kind(ms[0]));
    E.InputsOne(E.Handle);
    hide E.Inv, E.Conserved, E.Inputs;
  }

  lemma InputCoupled(s: State, x: M.Step, kind: M.Msg -> E.Kind)
    requires Inv(s, kind) && Enabled(s, Move(x)) && Safe(s, Move(x)) && AtEngine(s.m) && RunsInput(s.m, x)
    requires M.Inv(M.Next(s.m, x)) && AtEngine(M.Next(s.m, x))
    ensures Inv(Next(s, Move(x), kind), kind)
  {
    InputIsFirst(s.m, x);
    RunKeeps(s.e);
    hide M.Inv, M.Next, M.Safe, M.Enabled, M.ForEngine, E.Inv, E.Conserved, E.Safe, E.Inputs, E.Next, Posted, Labels, RunsInput;
    var n := M.Next(s.m, x);
    GivenStays(s.m, n);
    DropsOne(Labels(Given(s.m), kind), |M.ForEngine(s.m.log.handed)|);
    hide Given;
  }

  lemma GivenStays(m: M.State, n: M.State)
    requires Posted(m) != [] && Posted(n) == Posted(m)[1..]
    requires M.ForEngine(n.log.handed) == M.ForEngine(m.log.handed) + [Posted(m)[0]]
    ensures Given(n) == Given(m) && |M.ForEngine(m.log.handed)| < |Given(m)|
  {
    hide M.ForEngine, Posted;
    assert Posted(m) == [Posted(m)[0]] + Posted(n);
  }

  lemma DropsOne<T>(q: seq<T>, k: nat)
    requires k < |q|
    ensures q[k..][1..] == q[k + 1..]
  {
  }

  lemma OthersCoupled(s: State, x: M.Step, kind: M.Msg -> E.Kind)
    requires Inv(s, kind) && Enabled(s, Move(x)) && Safe(s, Move(x)) && AtEngine(s.m) && !RunsInput(s.m, x)
    requires M.Inv(M.Next(s.m, x)) && AtEngine(M.Next(s.m, x))
    ensures Inv(Next(s, Move(x), kind), kind)
  {
    OthersWait(s.m, x);
    hide M.Inv, M.Next, M.Safe, M.Enabled, M.ForEngine, E.Inv, E.Conserved, E.Inputs, Posted, Labels, PostAll, RunsInput;
    var n := M.Next(s.m, x);
    var more := Posted(n)[|Posted(s.m)|..];
    GivenGrows(s.m, n, more);
    MoreCoupled(s.e, Given(s.m), |M.ForEngine(s.m.log.handed)|, more, kind);
    hide Given;
  }

  lemma GivenGrows(m: M.State, n: M.State, more: seq<M.Msg>)
    requires n.log.handed == m.log.handed && Posted(m) <= Posted(n) && more == Posted(n)[|Posted(m)|..]
    ensures Given(n) == Given(m) + more && |M.ForEngine(m.log.handed)| <= |Given(m)|
  {
    hide M.ForEngine, Posted;
    assert Posted(n) == Posted(m) + more;
  }

  lemma MoreCoupled(e: E.State, given: seq<M.Msg>, h: nat, more: seq<M.Msg>, kind: M.Msg -> E.Kind)
    requires E.Inv(e) && E.Conserved(e) && h <= |given|
    requires e.arrived == Labels(given, kind) && E.Inputs(e.tasks) == Labels(given, kind)[h..]
    ensures var r, all := PostAll(e, more, kind), Labels(given + more, kind);
            E.Inv(r) && E.Conserved(r) && r.arrived == all && E.Inputs(r.tasks) == all[h..]
  {
    PostAllKeeps(e, more, kind);
    LabelsMore(given, more, h, kind);
    hide E.Inv, E.Conserved, E.Inputs, PostAll, Labels, Tail;
  }

  lemma EngineCoupled(s: State, ev: E.Event, kind: M.Msg -> E.Kind)
    requires Inv(s, kind) && Enabled(s, Engine(ev)) && Safe(s, Engine(ev))
    ensures Inv(Next(s, Engine(ev), kind), kind)
  {
    hide M.Inv, Posted, Given;
    if AtEngine(s.m) {
      E.StepKeepsInv(s.e, ev);
      E.StepConserves(s.e, ev);
      E.InputsConcat(s.e.tasks, [E.Handle]);
      E.InputsOne(E.Handle);
      if ev.RunTask? {
        RunKeeps(s.e);
      }
      hide E.Inv, E.Conserved, E.Safe, E.Inputs, E.HandleInMsgs, E.Receive;
      assert E.Inputs(s.e.tasks) + [] == E.Inputs(s.e.tasks);
    }
  }

  ghost predicate Run(ss: seq<State>, sts: seq<Step>, kind: M.Msg -> E.Kind) {
    && |ss| == |sts| + 1
    && forall i {:trigger sts[i]} :: 0 <= i < |sts| ==> Enabled(ss[i], sts[i]) && ss[i + 1] == Next(ss[i], sts[i], kind)
  }

  lemma {:induction false} RunKeepsInv(ss: seq<State>, sts: seq<Step>, i: nat, close: M.Close, ready: bool, kind: M.Msg -> E.Kind)
    requires close == M.NotTold || close == M.Waiting(0)
    requires Run(ss, sts, kind) && i < |ss| && ss[0] == Start(close, ready)
    requires forall j {:trigger sts[j]} :: 0 <= j < |sts| ==> Safe(ss[j], sts[j])
    ensures Inv(ss[i], kind)
  {
    if i == 0 {
      M.AcceptedInv(close);
    } else {
      hide Inv, Next, Enabled, Safe;
      RunKeepsInv(ss, sts, i - 1, close, ready, kind);
      assert Safe(ss[i - 1], sts[i - 1]);
      StepKeepsInv(ss[i - 1], sts[i - 1], kind);
    }
  }

  /** The messages of the connection are in one place each, and the engine has
      dispatched those that wait for it in the order in which it was given them, which
      is the order of their arrival. */
  ghost predicate InOrder(s: State, kind: M.Msg -> E.Kind) {
    var m, e := s.m, s.e;
    var given, done := Labels(Given(m), kind), E.Waiting(e.dispatched);
    && (!m.conn.closing ==> M.Msgs(m.log.handed) + Posted(m) + m.side.pending == m.log.arrivals)
    && (AtEngine(m) ==>
          && done <= E.Waiting(given) && !e.fault
          && (forall j, k :: 0 <= j < k < |done| ==> done[j].n < done[k].n < |Given(m)|)
          && multiset(e.dispatched) + multiset(e.refused) + multiset(e.inMsgs) + multiset(E.Inputs(e.tasks)) == multiset(given))
  }

  /** From arrival to dispatch: whatever is ready when, and however the threads are
      interleaved, the order is kept, and no message is lost or doubled on the way. */
  lemma RunsInOrder(ss: seq<State>, sts: seq<Step>, i: nat, close: M.Close, ready: bool, kind: M.Msg -> E.Kind)
    requires close == M.NotTold || close == M.Waiting(0)
    requires Run(ss, sts, kind) && i < |ss| && ss[0] == Start(close, ready)
    requires forall j {:trigger sts[j]} :: 0 <= j < |sts| ==> Safe(ss[j], sts[j])
    ensures InOrder(ss[i], kind)
  {
    hide *;
    RunKeepsInv(ss, sts, i, close, ready, kind);
    InvInOrder(ss[i], kind);
  }

  lemma InvInOrder(s: State, kind: M.Msg -> E.Kind)
    requires Inv(s, kind)
    ensures InOrder(s, kind)
  {
    var m, e := s.m, s.e;
    assert !m.conn.closing ==> M.Msgs(m.log.handed) + (Posted(m) + m.side.pending) == M.Msgs(m.log.handed) + Posted(m) + m.side.pending;
    if AtEngine(m) {
      E.DispatchedFirst(e);
      E.WaitingFrom(Labels(Given(m), kind), 0);
      hide M.Inv, E.Waiting, Posted, Given, E.Inputs;
      var done, all := E.Waiting(e.dispatched), E.Waiting(Labels(Given(m), kind));
      forall j, k | 0 <= j < k < |done| ensures done[j].n < done[k].n < |Given(m)| {
        assert done[j] == all[j] && done[k] == all[k] && all[k] in all;
      }
    }
  }

  // ----- A run in which a message is put back and dispatched later -----

  function Sent(): M.State {
    M.Next(M.Accepted(M.NotTold), M.Arrive(7))
  }

  function Brought(): M.State
    requires M.Enabled(Sent(), M.AppTask(M.SharedLoop))
  {
    M.Next(Sent(), M.AppTask(M.SharedLoop))
  }

  lemma Brings()
    ensures M.Enabled(Sent(), M.AppTask(M.SharedLoop)) && !AtEngine(Sent())
    ensures AtEngine(Brought()) && Brought().inMsgs == [7] && Given(Brought()) == [7]
  {
    Sends();
    M.FirstResults(Sent(), M.SharedLoop);
    FirstRuns(Sent(), M.SharedLoop);
    SharedEmpty();
    hide Sent, M.Next, M.AppHandles, M.Inputs, M.ForEngine;
    M.HandedAppend([], M.Handed(7, true));
    assert [] + [M.Handed(7, true)] == [M.Handed(7, true)] && [] + [7] == [7];
    assert M.ForEngine([]) == [] by {
      NoneHanded();
    }
  }

  lemma NoneHanded()
    ensures M.ForEngine([]) == []
  {
  }

  lemma Sends()
    ensures M.Sent(Sent()) && Sent().app == [M.Input(7)] && Sent().close == M.NotTold && Sent().log.handed == []
  {
  }

  /** The stages of the engine. */
  function Stage(i: nat): E.State {
    var x := E.Msg(0, E.Command);
    match i
    case 0 => E.Moved(false, E.Command)
    case 1 => E.State(false, [x], [], [x], [], [], false)
    case 2 => E.State(true, [x], [E.Handle], [x], [], [], false)
    case _ => E.State(true, [], [], [x], [x], [], false)
  }

  lemma Stages()
    ensures E.Next(Stage(0), E.RunTask) == Stage(1) && E.Next(Stage(1), E.BecomeReady) == Stage(2)
    ensures E.Next(Stage(2), E.RunTask) == Stage(3)
  {
    E.HandlesOne(Stage(0).(tasks := []), E.Msg(0, E.Command));
    assert [E.Handle][1..] == [] && [] + [E.Msg(0, E.Command)] == [E.Msg(0, E.Command)];
  }

  /** A command moves with its connection to an engine that is not ready, is put back,
      and is dispatched when the engine has become ready. */
  lemma FirstIsDispatched(kind: M.Msg -> E.Kind) returns (ss: seq<State>)
    requires kind(7) == E.Command
    ensures Run(ss, [Move(M.Arrive(7)), Move(M.AppTask(M.SharedLoop)), Engine(E.RunTask), Engine(E.BecomeReady), Engine(E.RunTask)], kind)
    ensures ss[0] == Start(M.NotTold, false) && ss[3].e.inMsgs == [E.Msg(0, E.Command)]
    ensures AtEngine(ss[5].m) && Given(ss[5].m) == [7] && ss[5].e.dispatched == [E.Msg(0, E.Command)]
  {
    hide *;
    Brings();
    MovesThere(kind);
    StageFields();
    var a, m := Start(M.NotTold, false), Brought();
    DispatchedThere(m, kind);
    ss := [a, State(Sent(), a.e), State(m, Stage(0)), State(m, Stage(1)), State(m, Stage(2)), State(m, Stage(3))];
    FiveSteps(ss, [Move(M.Arrive(7)), Move(M.AppTask(M.SharedLoop)), Engine(E.RunTask), Engine(E.BecomeReady), Engine(E.RunTask)], kind);
  }

  lemma FiveSteps(ss: seq<State>, sts: seq<Step>, kind: M.Msg -> E.Kind)
    requires |ss| == 6 && |sts| == 5
    requires Enabled(ss[0], sts[0]) && ss[1] == Next(ss[0], sts[0], kind)
    requires Enabled(ss[1], sts[1]) && ss[2] == Next(ss[1], sts[1], kind)
    requires Enabled(ss[2], sts[2]) && ss[3] == Next(ss[2], sts[2], kind)
    requires Enabled(ss[3], sts[3]) && ss[4] == Next(ss[3], sts[3], kind)
    requires Enabled(ss[4], sts[4]) && ss[5] == Next(ss[4], sts[4], kind)
    ensures Run(ss, sts, kind)
  {
    hide Next, Enabled;
  }

  lemma StageFields()
    ensures Stage(1).inMsgs == [E.Msg(0, E.Command)] == Stage(3).dispatched
  {
  }

  lemma MovesThere(kind: M.Msg -> E.Kind)
    requires kind(7) == E.Command
    ensures M.Enabled(Sent(), M.AppTask(M.SharedLoop))
    ensures var a, b := Start(M.NotTold, false), State(Sent(), Start(M.NotTold, false).e);
            && Enabled(a, Move(M.Arrive(7))) && Next(a, Move(M.Arrive(7)), kind) == b
            && Enabled(b, Move(M.AppTask(M.SharedLoop)))
            && Next(b, Move(M.AppTask(M.SharedLoop)), kind) == State(Brought(), Stage(0))
  {
    Brings();
    assert M.Enabled(M.Accepted(M.NotTold), M.Arrive(7));
    hide M.Next, M.Enabled, Given, Posted, E.Next;
  }

  lemma DispatchedThere(m: M.State, kind: M.Msg -> E.Kind)
    requires AtEngine(m)
    ensures var c, d, e := State(m, Stage(0)), State(m, Stage(1)), State(m, Stage(2));
            && Enabled(c, Engine(E.RunTask)) && Next(c, Engine(E.RunTask), kind) == d
            && Enabled(d, Engine(E.BecomeReady)) && Next(d, Engine(E.BecomeReady), kind) == e
            && Enabled(e, Engine(E.RunTask)) && Next(e, Engine(E.RunTask), kind) == State(m, Stage(3))
  {
    Stages();
    hide M.Next, M.Enabled, E.Next;
  }
}
