/**
 Moving a connection from the app's thread to an engine's thread while messages
 keep arriving: the states of one connection, of its protocol in a thread of its
 own, and of the two event loops, and what every interleaving of the three
 threads keeps.
 */
module Migration {

  datatype Mig = Init | FirstMsg | Done

  datatype Attach = ToApp | ToEngine | ToRemote

  /** Who is told when the connection closes: its owner. */
  datatype Handler = Orphanage | Nobody | TheEngine | TheRemote

  /** Messages are named by the numbers the client gives them. */
  type Msg = nat

  datatype Task = Input(m: Msg) | Cleaned(reset: bool) | ConnCleaned(m: Msg) | HandleMsgs

  /** What the app finds out about a message: it is for an engine with or without
      its own loop, for no engine that exists, it closes the app, it stops a graph
      (and is pushed to that engine at once), or nothing is done with it. */
  datatype Route = OwnLoop | SharedLoop | NoEngine | CloseApp | StopGraph | Ignored

  predicate ForAnEngine(route: Route) {
    route.OwnLoop? || route.SharedLoop? || route.StopGraph?
  }

  /** A message that reached the app or the engine, and whether it is for the engine. */
  datatype Handed = Handed(m: Msg, toEngine: bool)

  /** The task that closes what the app owns: nobody has posted it, it waits behind
      the first `ahead` of the tasks of the app's loop, or it has run. */
  datatype Close = NotTold | Waiting(ahead: nat) | Ran

  /** What belongs to the protocol's own thread: its copy of the migration state,
      the messages it holds back, and the posted notices that the migration is done
      (false) or was reset (true). */
  datatype Side = Side(ext: Mig, pending: seq<Msg>, impl: seq<bool>)

  /** The connection. `orphan`: the app lists it among its orphans; `cleaned`: the
      event the engine waits for is set; `own`: the engine it is for has a loop of
      its own; `closing`: its protocol was told to close; `migrations` counts how
      often it was attached to an engine. */
  datatype Conn = Conn(
    mig: Mig, attach: Attach, handler: Handler, orphan: bool, cleaned: bool, own: bool, closing: bool, migrations: nat)

  /** History: what arrived, what reached the app or the engine, what the engine
      dispatched, what a closing protocol dropped, and what went wrong, if anything did. */
  datatype Log = Log(
    arrivals: seq<Msg>, handed: seq<Handed>, delivered: seq<Msg>, dropped: seq<Msg>,
    ignoredFirst: bool, lost: bool, endless: bool, fault: bool)

  /** `app` and `eng` are the tasks of the two loops for this connection, `close` the
      one that closes the app, `inMsgs` the engine's queue of messages, `refs` the
      references to the protocol beyond the connection's own. */
  datatype State = State(
    side: Side, conn: Conn, app: seq<Task>, close: Close, eng: seq<Task>, inMsgs: seq<Msg>, refs: int, log: Log)

  /** One uninterrupted action of one thread: a message arrives at the protocol,
      somebody tells the app to close, or a thread runs its next task. `Sweep`: the
      engine handles its queue because of the messages of others. */
  datatype Step = Arrive(m: Msg) | AppTold | ImplTask | AppTask(route: Route) | CloseTask | EngTask | Sweep

  /** A client was accepted, before, after or while the close task waits: the app keeps
      the new connection with its orphans. */
  function Accepted(close: Close): State
    requires close.Waiting? ==> close.ahead == 0
  {
    State(Side(Init, [], []), Conn(Init, ToApp, Orphanage, true, false, false, false, 0), [], close, [], [], 0,
          Log([], [], [], [], false, false, false, false))
  }

  // ----- What the functions of the program do to the state -----

  function Post(s: State, toEngineLoop: bool, t: Task): State {
    if toEngineLoop then s.(eng := s.eng + [t]) else s.(app := s.app + [t])
  }

  /** Is the loop of the connection (`ten_connection_get_attached_runloop`) the engine's own? */
  predicate OnEngineLoop(s: State) {
    s.conn.attach != ToApp && s.conn.own
  }

  function Drop(s: State, m: Msg): State {
    s.(log := s.log.(dropped := s.log.dropped + [m]))
  }

  /** `ten_protocol_asynced_on_input_async` */
  function OnInputAsync(s: State, m: Msg): State {
    if s.conn.closing then Drop(s, m)
    else if s.side.ext == FirstMsg then s.(side := s.side.(pending := s.side.pending + [m]))
    else Post(s, OnEngineLoop(s), Input(m)).(
        refs := s.refs + 1, side := s.side.(ext := if s.side.ext == Init then FirstMsg else s.side.ext))
  }

  function AllAsync(s: State, ms: seq<Msg>): State
    decreases |ms|
  {
    if ms == [] then s else AllAsync(OnInputAsync(s, ms[0]), ms[1..])
  }

  /** The notice that the migration is done or reset is handled by the protocol. */
  function Resume(s: State, reset: bool): State {
    var held := s.side.pending;
    var r := s.(side := s.side.(ext := if reset then Init else Done, pending := []), refs := s.refs - 1);
    if !reset || s.conn.closing then AllAsync(r, held)
    else if held == [] then r
    else OnInputAsync(r, held[0]).(
        log := s.log.(lost := s.log.lost || |held| == 2, endless := s.log.endless || |held| > 2))
  }

  /** `ten_connection_on_migration_is_done_or_reset` */
  function Notify(s: State, reset: bool): State {
    Post(s, OnEngineLoop(s), Cleaned(reset)).(refs := s.refs + 1)
  }

  /** `ten_connection_upgrade_migration_state_to_done` with an engine */
  function Upgrade(s: State): State {
    Notify(s.(conn := s.conn.(attach := ToEngine, handler := TheEngine, mig := Done, migrations := s.conn.migrations + 1)), false)
  }

  /** `ten_engine_append_to_in_msgs_queue` */
  function Append(s: State, m: Msg): State {
    Post(s.(inMsgs := s.inMsgs + [m]), s.conn.own, HandleMsgs)
  }

  /** `ten_app_close`: the first call posts the close task at the end of the loop. */
  function TellApp(s: State): State {
    if s.close.NotTold? then s.(close := Waiting(|s.app|)) else s
  }

  /** `ten_app_close_sync`, as far as it concerns this connection. */
  function CloseSync(s: State): State {
    s.(close := Ran, conn := s.conn.(closing := s.conn.closing || s.conn.orphan))
  }

  function Fault(s: State): State {
    s.(log := s.log.(fault := true))
  }

  /** `ten_app_del_orphan_connection` */
  function DelOrphan(s: State): State {
    if s.conn.orphan then s.(conn := s.conn.(orphan := false, handler := Nobody)) else Fault(s)
  }

  /** `ten_app_do_connection_migration_or_push_to_engine_queue` */
  function MigrateOrPush(s: State, m: Msg): State {
    if s.conn.mig != FirstMsg then Append(s, m)
    else if s.conn.own then
      var d := DelOrphan(s);
      d.(conn := d.conn.(cleaned := true), eng := s.eng + [ConnCleaned(m)])
    else Append(Upgrade(DelOrphan(s)), m)
  }

  /** The app handles a message of a connection that it still owns. */
  function AppHandles(s: State, m: Msg, route: Route): State {
    var h := s.(log := s.log.(handed := s.log.handed + [Handed(m, ForAnEngine(route))]));
    match route
    case OwnLoop => MigrateOrPush(h.(conn := h.conn.(own := true)), m)
    case SharedLoop => MigrateOrPush(h.(conn := h.conn.(own := false)), m)
    case NoEngine => Notify(h.(conn := h.conn.(mig := Init)), true)
    case CloseApp => TellApp(Notify(h.(conn := h.conn.(mig := Done)), false))
    case StopGraph => Append(h, m)
    case Ignored => h.(log := h.log.(ignoredFirst := s.log.ignoredFirst || s.conn.mig == FirstMsg))
  }

  /** `ten_protocol_asynced_on_input`, `ten_protocol_on_input` and
      `ten_connection_on_msgs`, run by one of the loops. */
  function OnInput(s: State, m: Msg, engineLoop: bool, route: Route): State {
    var f := s.(conn := s.conn.(mig := if s.conn.mig == Init then FirstMsg else s.conn.mig));
    if s.conn.closing then Drop(s, m)
    else if s.conn.mig == FirstMsg || engineLoop != OnEngineLoop(s) then Fault(s)
    else match s.conn.attach
      case ToApp => AppHandles(f, m, route)
      case ToRemote => f.(log := f.log.(handed := s.log.handed + [Handed(m, true)], delivered := s.log.delivered + [m]))
      case ToEngine => Fault(s)
  }

  /** `ten_engine_on_connection_cleaned` */
  function OnConnectionCleaned(s: State, m: Msg): State {
    if s.conn.cleaned then Upgrade(Append(s, m)) else Fault(s)
  }

  /** `ten_engine_handle_in_msgs_sync` */
  function HandleInMsgs(s: State): State {
    if s.inMsgs == [] then s
    else if s.conn.mig != Done then Fault(s)
    else s.(
        conn := if s.conn.attach == ToRemote then s.conn else s.conn.(attach := ToRemote, handler := TheRemote),
        log := s.log.(delivered := s.log.delivered + s.inMsgs), inMsgs := [])
  }

  function RunTask(s: State, t: Task, engineLoop: bool, route: Route): State {
    match t
    case Input(m) => OnInput(s.(refs := s.refs - 1), m, engineLoop, route)
    case Cleaned(reset) => s.(side := s.side.(impl := s.side.impl + [reset]))
    case ConnCleaned(m) => OnConnectionCleaned(s, m)
    case HandleMsgs => HandleInMsgs(s)
  }

  /** One task fewer is ahead of the close task. */
  function Nearer(c: Close): Close {
    if c.Waiting? && c.ahead > 0 then Waiting(c.ahead - 1) else c
  }

  /** The state in which the first task of a loop runs. */
  function Popped(s: State, engineLoop: bool): State
    requires if engineLoop then s.eng != [] else s.app != []
  {
    if engineLoop then s.(eng := s.eng[1..]) else s.(app := s.app[1..], close := Nearer(s.close))
  }

  function Head(s: State, engineLoop: bool): Task
    requires if engineLoop then s.eng != [] else s.app != []
  {
    if engineLoop then s.eng[0] else s.app[0]
  }

  /** May the loop run its first task for this connection now? */
  predicate Runnable(s: State, engineLoop: bool) {
    if engineLoop then s.eng != [] else s.app != [] && s.close != Waiting(0)
  }

  predicate Enabled(s: State, e: Step) {
    match e
    case Arrive(_) => true
    case AppTold => true
    case ImplTask => s.side.impl != []
    case AppTask(_) => Runnable(s, false)
    case CloseTask => s.close == Waiting(0)
    case EngTask => Runnable(s, true)
    case Sweep => true
  }

  function Next(s: State, e: Step): State
    requires Enabled(s, e)
  {
    match e
    case Arrive(m) => OnInputAsync(s.(log := s.log.(arrivals := s.log.arrivals + [m])), m)
    case AppTold => TellApp(s)
    case ImplTask => Resume(s.(side := s.side.(impl := s.side.impl[1..])), s.side.impl[0])
    case AppTask(route) => RunTask(Popped(s, false), Head(s, false), false, route)
    case CloseTask => CloseSync(s)
    case EngTask => RunTask(Popped(s, true), Head(s, true), true, Ignored)
    case Sweep => HandleInMsgs(s)
  }

  // ----- Invariants -----

  function Inputs(q: seq<Task>): (ms: seq<Msg>) {
    if q == [] then [] else (if q[0].Input? then [q[0].m] else []) + Inputs(q[1..])
  }

  function Moving(q: seq<Task>): seq<Msg> {
    if q == [] then [] else (if q[0].ConnCleaned? then [q[0].m] else []) + Moving(q[1..])
  }

  /** The number of tasks that hold a reference to the protocol. */
  function Holding(q: seq<Task>): nat {
    if q == [] then 0 else (if q[0].Input? || q[0].Cleaned? then 1 else 0) + Holding(q[1..])
  }

  function Msgs(h: seq<Handed>): seq<Msg> {
    if h == [] then [] else Msgs(h[..|h| - 1]) + [h[|h| - 1].m]
  }

  function ForEngine(h: seq<Handed>): seq<Msg> {
    if h == [] then []
    else ForEngine(h[..|h| - 1]) + if h[|h| - 1].toEngine then [h[|h| - 1].m] else []
  }

  /** The messages that have arrived and have not reached the app or the engine. */
  function Queued(s: State): seq<Msg> {
    Inputs(s.app) + Inputs(s.eng) + s.side.pending
  }

  /** References to the protocol that no waiting task accounts for. */
  function Unheld(s: State): int {
    s.refs - Holding(s.app) - Holding(s.eng) - |s.side.impl|
  }

  /** What arrived was handed over, waits or was dropped, each message once. */
  ghost predicate Conserved(s: State) {
    multiset(Msgs(s.log.handed)) + multiset(Queued(s)) + multiset(s.log.dropped) == multiset(s.log.arrivals)
  }

  /** Nothing is lost, duplicated or overtaken, only a closing protocol drops
      messages, and every waiting task that uses the protocol holds a reference. */
  ghost predicate Books(s: State) {
    && (if s.conn.closing then Msgs(s.log.handed) <= s.log.arrivals && Conserved(s)
        else Msgs(s.log.handed) + Queued(s) == s.log.arrivals && s.log.dropped == [])
    && ForEngine(s.log.handed) == s.log.delivered + s.inMsgs + Moving(s.eng)
    && Unheld(s) == 0
  }

  /** A connection has one owner, the one that its closing is reported to. */
  ghost predicate OneOwner(s: State) {
    && (s.conn.orphan <==> s.conn.handler == Orphanage)
    && (s.conn.orphan ==> s.conn.attach == ToApp)
    && (s.conn.attach == ToEngine ==> s.conn.handler == TheEngine)
    && (s.conn.attach == ToRemote ==> s.conn.handler == TheRemote)
    && (s.conn.attach != ToApp ==> s.conn.mig == Done)
    && s.conn.migrations == (if s.conn.attach == ToApp then 0 else 1)
  }

  predicate AllInput(q: seq<Task>) {
    forall i :: 0 <= i < |q| ==> q[i].Input?
  }

  /** The app owns the connection and the engines know nothing of it. */
  predicate AtApp(s: State) {
    s.conn.attach == ToApp && s.conn.orphan && s.eng == [] && s.inMsgs == [] && !s.conn.closing
  }

  /** The app has told the connection to close. */
  predicate Dropping(s: State) {
    && s.conn.closing && s.conn.attach == ToApp && s.conn.orphan && s.eng == [] && s.inMsgs == []
    && forall i :: 0 <= i < |s.app| ==> s.app[i].Input? || s.app[i].Cleaned?
  }

  predicate Idle(s: State) {
    AtApp(s) && s.side.ext == Init && s.conn.mig == Init && s.side.pending == [] && s.app == [] && s.side.impl == []
  }

  predicate Sent(s: State) {
    AtApp(s) && s.side.ext == FirstMsg && s.conn.mig == Init && |s.app| == 1 && s.app[0].Input? && s.side.impl == []
  }

  /** The first message was ignored; the protocol waits for a notice nobody sends. */
  predicate Frozen(s: State) {
    AtApp(s) && s.side.ext == FirstMsg && s.conn.mig == FirstMsg && s.app == [] && s.side.impl == []
  }

  predicate BeingReset(s: State) {
    && AtApp(s) && s.side.ext == FirstMsg && s.conn.mig == Init
    && ((s.app == [Cleaned(true)] && s.side.impl == []) || (s.app == [] && s.side.impl == [true]))
  }

  predicate Moved(s: State) {
    && s.conn.attach == ToApp && !s.conn.orphan && s.conn.cleaned && s.conn.own && s.conn.mig == FirstMsg && !s.conn.closing
    && s.side.ext == FirstMsg && s.inMsgs == []
    && s.app == [] && |s.eng| == 1 && s.eng[0].ConnCleaned? && s.side.impl == []
  }

  /** The connection belongs to the engine, whose loop has the tasks `q`. */
  predicate Arrived(s: State, q: seq<Task>) {
    && s.conn.attach != ToApp && s.conn.mig == Done && !s.conn.closing && !s.conn.orphan
    && (s.conn.attach == ToRemote ==> s.inMsgs == [])
    && (s.conn.attach == ToEngine ==> |s.inMsgs| == 1)
    && if s.side.ext == Done then
         && s.side.pending == [] && s.side.impl == []
         && ((AllInput(q) && s.conn.attach == ToRemote) || (|q| > 0 && q[0] == HandleMsgs && AllInput(q[1..])))
       else
         && s.side.ext == FirstMsg
         && (if s.side.impl == [] then
               || q == [HandleMsgs, Cleaned(false)] || q == [Cleaned(false), HandleMsgs]
               || (q == [Cleaned(false)] && s.conn.attach == ToRemote)
             else s.side.impl == [false] && (q == [HandleMsgs] || (q == [] && s.conn.attach == ToRemote)))
  }

  /** The app was told to close by a message of this connection: when the notice has
      gone out, the close task is the next to run. */
  predicate ClosingApp(s: State) {
    && AtApp(s) && s.conn.mig == Done && s.close.Waiting?
    && if s.side.ext == Done then
         s.side.pending == [] && s.side.impl == [] && s.close.ahead == 0 && AllInput(s.app)
       else
         && s.side.ext == FirstMsg
         && (if s.side.impl == [] then s.app == [Cleaned(false)] && s.close.ahead <= 1
             else s.side.impl == [false] && s.app == [] && s.close.ahead == 0)
  }

  predicate Shape(s: State) {
    || Idle(s) || Sent(s) || Frozen(s) || BeingReset(s) || Moved(s) || ClosingApp(s) || Dropping(s)
    || (s.conn.own && s.app == [] && Arrived(s, s.eng))
    || (!s.conn.own && s.eng == [] && Arrived(s, s.app))
  }

  /** The close task closes exactly the connections that are the app's when it runs. */
  predicate CloseReaches(s: State) {
    && (s.close.Waiting? ==> s.close.ahead <= |s.app|)
    && (s.conn.closing <==> s.conn.orphan && s.close.Ran?)
  }

  ghost predicate Inv(s: State) {
    && Shape(s) && Books(s) && OneOwner(s) && CloseReaches(s)
    && !s.log.fault && !s.log.lost && !s.log.endless
    && (!s.conn.closing ==> (s.log.ignoredFirst <==> Frozen(s)))
  }

  /** The condition under which a step is safe: the notice of a reset must not find
      more than one message held back, and the first message must not stop a graph
      that exists, unless the connection is closing. */
  predicate Safe(s: State, e: Step) {
    match e
    case ImplTask => s.side.impl != [] && s.side.impl[0] && !s.conn.closing ==> |s.side.pending| <= 1
    case AppTask(route) => s.app != [] && s.app[0].Input? && s.conn.attach == ToApp && !s.conn.closing ==> !route.StopGraph?
    case _ => true
  }

  // ----- Every step keeps the invariants -----

  lemma {:induction false} InputsAppend(q: seq<Task>, t: Task)
    ensures Inputs(q + [t]) == Inputs(q) + (if t.Input? then [t.m] else [])
  {
    if q == [] {
      assert q + [t] == [t];
    } else {
      InputsAppend(q[1..], t);
      assert (q + [t])[1..] == q[1..] + [t];
    }
  }

  lemma {:induction false} MovingAppend(q: seq<Task>, t: Task)
    ensures Moving(q + [t]) == Moving(q) + (if t.ConnCleaned? then [t.m] else [])
  {
    if q == [] {
      assert q + [t] == [t];
    } else {
      MovingAppend(q[1..], t);
      assert (q + [t])[1..] == q[1..] + [t];
    }
  }

  lemma {:induction false} HoldingAppend(q: seq<Task>, t: Task)
    ensures Holding(q + [t]) == Holding(q) + (if t.Input? || t.Cleaned? then 1 else 0)
  {
    if q == [] {
      assert q + [t] == [t];
    } else {
      HoldingAppend(q[1..], t);
      assert (q + [t])[1..] == q[1..] + [t];
    }
  }

  lemma HandedAppend(h: seq<Handed>, x: Handed)
    ensures Msgs(h + [x]) == Msgs(h) + [x.m]
    ensures ForEngine(h + [x]) == ForEngine(h) + if x.toEngine then [x.m] else []
  {
    assert (h + [x])[..|h|] == h;
  }

  /** What a message pushed to the loop of the connection may rely on: nothing
      older is held back or waits in the other loop. */
  ghost predicate Ordered(s: State) {
    && (s.side.ext != FirstMsg ==> s.side.pending == [])
    && (if OnEngineLoop(s) then Inputs(s.app) == [] else Inputs(s.eng) == [])
  }

  lemma ShapeOrdered(s: State)
    requires Shape(s) && !s.conn.closing
    ensures Ordered(s)
  {
  }

  /** A message from the client joins the end of the stream. */
  lemma OnInputAsyncBooks(s: State, m: Msg)
    requires Ordered(s) && !s.conn.closing
    ensures var r := OnInputAsync(s, m);
            Queued(r) == Queued(s) + [m] && Moving(r.eng) == Moving(s.eng) && Unheld(r) == Unheld(s)
  {
    if s.side.ext == FirstMsg {
      hide Inputs, Moving, Holding;
      assert Inputs(s.app) + Inputs(s.eng) + (s.side.pending + [m]) == Inputs(s.app) + Inputs(s.eng) + s.side.pending + [m];
    } else {
      var q := if OnEngineLoop(s) then s.eng else s.app;
      InputsAppend(q, Input(m));
      MovingAppend(q, Input(m));
      HoldingAppend(q, Input(m));
      hide Inputs, Moving, Holding;
      if OnEngineLoop(s) {
        assert OnInputAsync(s, m).eng == s.eng + [Input(m)];
      } else {
        assert OnInputAsync(s, m).app == s.app + [Input(m)];
      }
    }
  }

  lemma OnInputAsyncShape(s: State, m: Msg)
    requires Shape(s) && !s.conn.closing
    ensures Shape(OnInputAsync(s, m)) && (Frozen(OnInputAsync(s, m)) <==> Frozen(s))
  {
    var r := OnInputAsync(s, m);
    if s.side.ext == FirstMsg {
      HeldBackShape(s, r);
    } else if Idle(s) {
      assert Sent(r) && !Frozen(r);
    } else if ClosingApp(s) {
      assert r.app == s.app + [Input(m)];
      assert ClosingApp(r) && !Frozen(r);
    } else if s.conn.own {
      ArrivedMore(s, s.eng, m);
      ArrivedBy(s, r);
    } else {
      ArrivedMore(s, s.app, m);
      ArrivedBy(s, r);
    }
  }

  lemma HeldBackShape(s: State, r: State)
    requires Shape(s) && s.side.ext == FirstMsg && r == s.(side := s.side.(pending := r.side.pending))
    ensures Shape(r) && (Frozen(r) <==> Frozen(s))
  {
    if s.conn.own {
      assert Arrived(s, s.eng) ==> Arrived(r, r.eng);
    } else {
      assert Arrived(s, s.app) ==> Arrived(r, r.app);
    }
  }

  lemma ArrivedBy(s: State, r: State)
    requires s.conn.attach != ToApp && s.side.ext == Done && !s.conn.closing
    requires r == s.(app := r.app, eng := r.eng, refs := r.refs)
    requires if s.conn.own then r.app == [] && Arrived(s, r.eng) else r.eng == [] && Arrived(s, r.app)
    ensures Shape(r) && !Frozen(r) && !Frozen(s)
  {
    assert if s.conn.own then Arrived(r, r.eng) else Arrived(r, r.app);
  }

  lemma ArrivedMore(s: State, q: seq<Task>, m: Msg)
    requires Arrived(s, q) && s.side.ext == Done
    ensures Arrived(s, q + [Input(m)])
  {
    if q != [] {
      assert (q + [Input(m)])[1..] == q[1..] + [Input(m)];
    }
  }

  lemma ArriveKeepsInv(s: State, m: Msg)
    requires Inv(s)
    ensures Inv(Next(s, Arrive(m)))
  {
    if s.conn.closing {
      DroppingKeepsInv(s, Arrive(m));
    } else {
      ShapeOrdered(s);
      OnInputAsyncBooks(s, m);
      OnInputAsyncShape(s, m);
      AsyncConn(s, m);
      var r, n := OnInputAsync(s, m), Next(s, Arrive(m));
      SameShape(r, n);
      SameQueues(r, n);
      Joined(s, n, m);
    }
  }

  /** A message has joined the end of the stream. */
  lemma Joined(s: State, n: State, m: Msg)
    requires Inv(s) && Shape(n) && n.conn == s.conn && !s.conn.closing && n.inMsgs == s.inMsgs
    requires n.close == s.close && |n.app| >= |s.app|
    requires n.log == s.log.(arrivals := s.log.arrivals + [m]) && (Frozen(n) <==> Frozen(s))
    requires Queued(n) == Queued(s) + [m] && Unheld(n) == Unheld(s) && Moving(n.eng) == Moving(s.eng)
    ensures Inv(n)
  {
    hide Shape, Frozen, Msgs, ForEngine, Moving, Queued, Unheld;
    assert Msgs(s.log.handed) + (Queued(s) + [m]) == (Msgs(s.log.handed) + Queued(s)) + [m];
  }

  lemma AsyncConn(s: State, m: Msg)
    requires !s.conn.closing
    ensures var r := OnInputAsync(s, m);
            r.conn == s.conn && r.log == s.log && r.inMsgs == s.inMsgs && r.close == s.close && |r.app| >= |s.app|
  {
  }

  /** The history plays no part in the shape of a state. */
  lemma SameShape(s: State, r: State)
    requires r == s.(log := r.log, conn := s.conn.(migrations := r.conn.migrations, handler := r.conn.handler), refs := r.refs)
    ensures (Shape(s) <==> Shape(r)) && (Frozen(s) <==> Frozen(r))
  {
  }

  lemma {:induction false} AllAsyncKeeps(s: State, ms: seq<Msg>)
    requires Shape(s) && s.side.ext == Done && !s.conn.closing
    ensures var r := AllAsync(s, ms);
            && Shape(r) && (Frozen(r) <==> Frozen(s))
            && r == s.(app := r.app, eng := r.eng, refs := r.refs) && |r.app| >= |s.app|
            && Queued(r) == Queued(s) + ms && Moving(r.eng) == Moving(s.eng) && Unheld(r) == Unheld(s)
    decreases |ms|
  {
    hide Shape, Frozen, Queued, Unheld, Moving;
    if ms == [] {
      assert Queued(s) + ms == Queued(s);
    } else {
      var n := OnInputAsync(s, ms[0]);
      ShapeOrdered(s);
      OnInputAsyncBooks(s, ms[0]);
      OnInputAsyncShape(s, ms[0]);
      AllAsyncKeeps(n, ms[1..]);
      assert Queued(s) + [ms[0]] + ms[1..] == Queued(s) + ms;
    }
  }

  /** The protocol before it looks at what it held back. */
  function Thawed(s: State): State
    requires s.side.impl != []
  {
    s.(side := s.side.(impl := s.side.impl[1..], ext := if s.side.impl[0] then Init else Done, pending := []), refs := s.refs - 1)
  }

  lemma ThawedShape(s: State)
    requires Shape(s) && s.side.impl != [] && !s.conn.closing
    ensures Shape(Thawed(s)) && !Frozen(s) && !Frozen(Thawed(s))
  {
  }

  lemma ThawedBooks(s: State)
    requires s.side.impl != []
    ensures Queued(s) == Queued(Thawed(s)) + s.side.pending && Unheld(Thawed(s)) == Unheld(s)
  {
    assert Inputs(s.app) + Inputs(s.eng) + [] == Inputs(s.app) + Inputs(s.eng);
  }

  lemma ImplKeepsInv(s: State)
    requires Inv(s) && Enabled(s, ImplTask) && Safe(s, ImplTask)
    ensures Inv(Next(s, ImplTask))
  {
    hide Shape, Frozen, Queued, Unheld, Moving, Msgs, ForEngine, AllAsync, OnInputAsync;
    var t, r := Thawed(s), Next(s, ImplTask);
    ThawedBooks(s);
    if s.conn.closing {
      DroppingKeepsInv(s, ImplTask);
    } else if !s.side.impl[0] {
      ThawedShape(s);
      AllAsyncKeeps(t, s.side.pending);
    } else if s.side.pending == [] {
      ThawedShape(s);
      assert Queued(t) + s.side.pending == Queued(t);
    } else {
      ThawedShape(s);
      ResetResumes(s);
    }
  }

  lemma ResetResumes(s: State)
    requires Shape(s) && s.side.impl != [] && s.side.impl[0] && |s.side.pending| == 1 && !s.log.lost && !s.log.endless
    requires !s.conn.closing
    ensures var r := Next(s, ImplTask);
            && Shape(r) && !Frozen(r) && Queued(r) == Queued(s) && Moving(r.eng) == Moving(s.eng) && Unheld(r) == Unheld(s)
            && r == s.(side := r.side, app := r.app, eng := r.eng, refs := r.refs) && |r.app| >= |s.app|
  {
    var t := Thawed(s);
    ThawedShape(s);
    ThawedBooks(s);
    ShapeOrdered(t);
    OnInputAsyncBooks(t, s.side.pending[0]);
    OnInputAsyncShape(t, s.side.pending[0]);
    assert [s.side.pending[0]] == s.side.pending;
    hide Shape, Frozen, Queued, Unheld, Moving;
    SameShape(OnInputAsync(t, s.side.pending[0]), Next(s, ImplTask));
    assert Next(s, ImplTask) == OnInputAsync(t, s.side.pending[0]);
  }

  /** The invariants are kept if whatever leaves one place arrives at the next. */
  lemma KeepsInv(s: State, r: State, more: seq<Msg>)
    requires Inv(s) && Shape(r) && OneOwner(r) && r.log.arrivals == s.log.arrivals && Unheld(r) == Unheld(s)
    requires !s.conn.closing && !r.conn.closing && r.log.dropped == s.log.dropped && CloseReaches(r)
    requires Msgs(r.log.handed) + Queued(r) == Msgs(s.log.handed) + Queued(s)
    requires ForEngine(r.log.handed) == ForEngine(s.log.handed) + more
    requires r.log.delivered + r.inMsgs + Moving(r.eng) == s.log.delivered + s.inMsgs + Moving(s.eng) + more
    requires !r.log.fault && !r.log.lost && !r.log.endless && (r.log.ignoredFirst <==> Frozen(r))
    ensures Inv(r)
  {
  }

  lemma SameQueues(a: State, b: State)
    requires a.app == b.app && a.eng == b.eng && a.side.pending == b.side.pending && a.side.impl == b.side.impl
    ensures Queued(a) == Queued(b) && Unheld(a) - Unheld(b) == a.refs - b.refs
  {
  }

  // ----- What single functions keep -----

  /** The messages that wait, the references and the single owner are as they were,
      and what the engine has to dispatch has grown by `more`. */
  ghost predicate Keeps(s: State, r: State, more: seq<Msg>) {
    && Queued(r) == Queued(s) && Unheld(r) == Unheld(s)
    && (OneOwner(s) ==> OneOwner(r))
    && (Moving(s.eng) == [] ==> r.inMsgs + Moving(r.eng) == s.inMsgs + more)
  }

  lemma PostBooks(s: State, toEngineLoop: bool, t: Task)
    requires !t.Input?
    ensures var r := Post(s, toEngineLoop, t);
            && Queued(r) == Queued(s) && Unheld(r) == Unheld(s) - (if t.Cleaned? then 1 else 0)
            && Moving(r.eng) == Moving(s.eng) + (if t.ConnCleaned? && toEngineLoop then [t.m] else [])
  {
    var q := if toEngineLoop then s.eng else s.app;
    InputsAppend(q, t);
    MovingAppend(q, t);
    HoldingAppend(q, t);
    hide Inputs, Moving, Holding;
  }

  lemma NotifyKeeps(s: State, reset: bool)
    ensures Keeps(s, Notify(s, reset), [])
  {
    PostBooks(s, OnEngineLoop(s), Cleaned(reset));
    hide Queued, Moving, Holding, OnEngineLoop;
    var p := Post(s, OnEngineLoop(s), Cleaned(reset));
    SameQueues(p, p.(refs := s.refs + 1));
  }

  lemma UpgradeKeeps(s: State)
    requires s.conn.attach == ToApp && !s.conn.orphan
    ensures Keeps(s, Upgrade(s), [])
  {
    var u := s.(conn := s.conn.(attach := ToEngine, handler := TheEngine, mig := Done, migrations := s.conn.migrations + 1));
    NotifyKeeps(u, false);
    SameQueues(s, u);
    hide Queued, Unheld, Moving, Notify;
  }

  lemma AppendKeeps(s: State, m: Msg)
    ensures Keeps(s, Append(s, m), [m])
  {
    var t := s.(inMsgs := s.inMsgs + [m]);
    PostBooks(t, s.conn.own, HandleMsgs);
    SameQueues(s, t);
    hide Queued, Unheld, Moving;
  }

  lemma KeepsTrans(s: State, t: State, r: State, more: seq<Msg>)
    requires Keeps(s, t, []) && Keeps(t, r, more) && Moving(t.eng) == Moving(s.eng) && t.inMsgs == s.inMsgs
    ensures Keeps(s, r, more)
  {
    hide Queued, Unheld, Moving, OneOwner;
  }

  /** The first message for an engine, or a later one, is in one place afterwards. */
  lemma MigrateOrPushKeeps(s: State, m: Msg)
    requires s.conn.attach == ToApp && (s.conn.mig == FirstMsg ==> s.conn.orphan)
    ensures Keeps(s, MigrateOrPush(s, m), [m])
  {
    if s.conn.mig != FirstMsg {
      AppendKeeps(s, m);
    } else {
      var d := DelOrphan(s);
      SameQueues(s, d);
      assert Keeps(s, d, []) by {
        hide Queued, Unheld, Moving;
        assert s.inMsgs + [] == s.inMsgs;
      }
      MovesOrphan(s, d, m);
    }
  }

  lemma MovesOrphan(s: State, d: State, m: Msg)
    requires s.conn.attach == ToApp && s.conn.mig == FirstMsg && s.conn.orphan && d == DelOrphan(s) && Keeps(s, d, [])
    ensures Keeps(s, MigrateOrPush(s, m), [m])
  {
    hide Queued, Unheld, Moving, Notify;
    if s.conn.own {
      var c := d.(conn := d.conn.(cleaned := true));
      SameQueues(d, c);
      PostBooks(c, true, ConnCleaned(m));
      assert MigrateOrPush(s, m) == Post(c, true, ConnCleaned(m));
    } else {
      UpgradeKeeps(d);
      AppendKeeps(Upgrade(d), m);
      assert MigrateOrPush(s, m) == Append(Upgrade(d), m);
      PostBooks(d, false, Cleaned(false));
      hide Append;
      UpgradeQueue(d);
    }
  }

  lemma UpgradeQueue(s: State)
    requires !s.conn.own
    ensures Upgrade(s).eng == s.eng && Upgrade(s).inMsgs == s.inMsgs
  {
  }

  /** Whatever the app finds out about a message, the message is counted once, the
      messages behind it wait as before, and the connection has one owner. */
  lemma AppHandlesKeeps(s: State, m: Msg, route: Route)
    requires s.conn.attach == ToApp && s.conn.mig != Init && (s.conn.mig == FirstMsg ==> s.conn.orphan)
    ensures var r := AppHandles(s, m, route);
            && Keeps(s, r, if ForAnEngine(route) then [m] else [])
            && Msgs(r.log.handed) == Msgs(s.log.handed) + [m]
            && ForEngine(r.log.handed) == ForEngine(s.log.handed) + (if ForAnEngine(route) then [m] else [])
  {
    HandedAppend(s.log.handed, Handed(m, ForAnEngine(route)));
    hide Msgs, ForEngine;
    var h := s.(log := s.log.(handed := s.log.handed + [Handed(m, ForAnEngine(route))]));
    match route
    case OwnLoop => MigrateOrPushKeeps(h.(conn := h.conn.(own := true)), m);
    case SharedLoop => MigrateOrPushKeeps(h.(conn := h.conn.(own := false)), m);
    case NoEngine => NotifyKeeps(h.(conn := h.conn.(mig := Init)), true);
    case CloseApp => NotifyKeeps(h.(conn := h.conn.(mig := Done)), false);
    case StopGraph => AppendKeeps(h, m);
    case Ignored =>
  }

  // ----- A closing connection -----

  lemma ClosingDrops(s: State)
    requires Shape(s) && s.conn.closing
    ensures Dropping(s)
  {
  }

  lemma {:induction false} AllDropped(s: State, ms: seq<Msg>)
    requires s.conn.closing
    ensures AllAsync(s, ms) == s.(log := s.log.(dropped := s.log.dropped + ms))
    decreases |ms|
  {
    if ms == [] {
      assert s.log.dropped + ms == s.log.dropped;
    } else {
      AllDropped(Drop(s, ms[0]), ms[1..]);
      assert s.log.dropped + [ms[0]] + ms[1..] == s.log.dropped + ms;
    }
  }

  /** A closing connection drops whatever reaches it: nothing is handed over any
      more, and nothing is forgotten either. */
  lemma DroppingKeepsInv(s: State, e: Step)
    requires Inv(s) && s.conn.closing && Enabled(s, e)
    ensures Inv(Next(s, e)) && Next(s, e).conn == s.conn && Next(s, e).log.handed == s.log.handed
  {
    ClosingDrops(s);
    var n := Next(s, e);
    match e
    case Arrive(m) => DroppedOne(s, n, m);
    case ImplTask =>
      AllDropped(Thawed(s), s.side.pending);
      DroppedHeld(s, n);
    case AppTask(_) => DroppedTask(s, n);
    case _ =>
  }

  lemma DroppedOne(s: State, n: State, m: Msg)
    requires Inv(s) && Dropping(s)
    requires n == s.(log := s.log.(arrivals := s.log.arrivals + [m], dropped := s.log.dropped + [m]))
    ensures Inv(n)
  {
    hide Msgs, ForEngine, Inputs, Holding, Moving;
    assert Queued(n) == Queued(s);
  }

  lemma DroppedHeld(s: State, n: State)
    requires Inv(s) && Dropping(s) && s.side.impl != []
    requires n == Thawed(s).(log := s.log.(dropped := s.log.dropped + s.side.pending))
    ensures Inv(n)
  {
    ThawedBooks(s);
    hide Msgs, ForEngine, Inputs, Holding, Moving;
    assert Queued(n) == Queued(Thawed(s)) && Unheld(n) == Unheld(Thawed(s));
    assert multiset(Queued(s)) == multiset(Queued(n)) + multiset(s.side.pending);
  }

  lemma DroppedTask(s: State, n: State)
    requires Inv(s) && Dropping(s) && Runnable(s, false)
    requires var p := Popped(s, false);
             n == if s.app[0].Input? then Drop(p.(refs := s.refs - 1), s.app[0].m)
                  else p.(side := p.side.(impl := p.side.impl + [s.app[0].reset]))
    ensures Inv(n)
  {
    DroppedQueue(s, n);
    assert Dropping(n) && CloseReaches(n) && OneOwner(n);
    hide Msgs, ForEngine, Moving, Queued, Unheld, Dropping, CloseReaches, OneOwner;
    DroppedBooks(s, n);
    assert Shape(n);
  }

  lemma DroppedBooks(s: State, n: State)
    requires Books(s) && s.conn.closing && n.conn == s.conn && n.inMsgs == s.inMsgs && n.eng == s.eng
    requires s.app != [] && var more := if s.app[0].Input? then [s.app[0].m] else [];
             Queued(s) == more + Queued(n) && n.log == s.log.(dropped := s.log.dropped + more)
    requires Unheld(n) == Unheld(s)
    ensures Books(n)
  {
    hide Msgs, ForEngine, Moving, Queued, Unheld;
  }

  lemma DroppedQueue(s: State, n: State)
    requires Dropping(s) && s.app != [] && n.app == s.app[1..] && n.eng == s.eng && n.side.pending == s.side.pending
    requires if s.app[0].Input? then n.refs == s.refs - 1 && n.side == s.side
             else n.refs == s.refs && n.side.impl == s.side.impl + [s.app[0].reset]
    ensures Queued(s) == (if s.app[0].Input? then [s.app[0].m] else []) + Queued(n) && Unheld(n) == Unheld(s)
  {
    assert s.app[0].Input? || s.app[0].Cleaned?;
    assert Inputs(s.app) == (if s.app[0].Input? then [s.app[0].m] else []) + Inputs(n.app);
    assert Holding(s.app) == 1 + Holding(n.app);
    hide Dropping, Inputs, Holding;
  }

  lemma AppToldKeepsInv(s: State)
    requires Inv(s)
    ensures Inv(Next(s, AppTold))
  {
    hide Msgs, ForEngine, Inputs, Holding, Moving;
    var n := Next(s, AppTold);
    assert Shape(n) && (Frozen(n) <==> Frozen(s)) by {
      if s.close.NotTold? {
        ToldShape(s, n);
      }
    }
    hide Shape, Frozen;
    SameQueues(s, n);
  }

  lemma ToldShape(s: State, n: State)
    requires Shape(s) && !s.close.Waiting? && n == s.(close := n.close)
    ensures Shape(n) && (Frozen(n) <==> Frozen(s))
  {
    if s.conn.own {
      assert Arrived(s, s.eng) ==> Arrived(n, n.eng);
    } else {
      assert Arrived(s, s.app) ==> Arrived(n, n.app);
    }
  }

  /** The close task: what is an orphan of the app starts to drop its messages. */
  lemma CloseTaskKeepsInv(s: State)
    requires Inv(s) && s.close == Waiting(0)
    ensures Inv(Next(s, CloseTask))
  {
    var n := Next(s, CloseTask);
    CloseTaskShape(s, n);
    hide Shape, Frozen, Msgs, ForEngine, Inputs, Holding, Moving;
    SameQueues(s, n);
    if s.conn.orphan && !s.conn.closing {
      assert Msgs(s.log.handed) <= Msgs(s.log.handed) + Queued(s);
    }
  }

  lemma CloseTaskShape(s: State, n: State)
    requires Shape(s) && CloseReaches(s) && s.close == Waiting(0) && n == CloseSync(s)
    ensures Shape(n) && (!s.conn.orphan ==> !Frozen(n) && !Frozen(s))
    ensures n.conn == s.conn.(closing := s.conn.orphan)
  {
    if s.conn.orphan {
      assert Dropping(n);
    } else if s.conn.own {
      assert Arrived(s, s.eng) ==> Arrived(n, n.eng);
    } else {
      assert Arrived(s, s.app) ==> Arrived(n, n.app);
    }
  }

  // ----- The tasks of the loops -----

  lemma PoppedBooks(s: State, engineLoop: bool)
    requires Runnable(s, engineLoop) && Ordered(s)
    requires Head(s, engineLoop).Input? ==> engineLoop == OnEngineLoop(s) || Inputs(s.eng) == []
    ensures var p, t := Popped(s, engineLoop), Head(s, engineLoop);
            && Queued(s) == (if t.Input? then [t.m] else []) + Queued(p)
            && Moving(s.eng) == (if t.ConnCleaned? && engineLoop then [t.m] else []) + Moving(p.eng)
            && Unheld(p) == Unheld(s) + (if t.Input? || t.Cleaned? then 1 else 0)
            && p == s.(app := p.app, close := p.close, eng := p.eng)
            && (CloseReaches(s) ==> CloseReaches(p))
  {
  }

  lemma CleanedKeepsInv(s: State, engineLoop: bool)
    requires Inv(s) && !s.conn.closing && Runnable(s, engineLoop) && Head(s, engineLoop).Cleaned?
    ensures var p := Popped(s, engineLoop);
            Inv(p.(side := p.side.(impl := p.side.impl + [Head(s, engineLoop).reset])))
  {
    ShapeOrdered(s);
    PoppedBooks(s, engineLoop);
    CleanedShape(s, engineLoop);
    hide Shape, Frozen, Queued, Moving, Unheld;
    var p := Popped(s, engineLoop);
    var r := p.(side := p.side.(impl := p.side.impl + [Head(s, engineLoop).reset]));
    assert Queued(r) == Queued(s) && Unheld(r) == Unheld(s) && Moving(r.eng) == Moving(s.eng) by {
      ImplBooks(p, r.side.impl);
    }
  }

  lemma ImplBooks(s: State, impl: seq<bool>)
    ensures var r := s.(side := s.side.(impl := impl));
            Queued(r) == Queued(s) && Unheld(r) == Unheld(s) + |s.side.impl| - |impl|
  {
  }

  lemma CleanedShape(s: State, engineLoop: bool)
    requires Shape(s) && !s.conn.closing && Runnable(s, engineLoop) && Head(s, engineLoop).Cleaned?
    ensures var p := Popped(s, engineLoop);
            var r := p.(side := p.side.(impl := p.side.impl + [Head(s, engineLoop).reset]));
            Shape(r) && !Frozen(s) && !Frozen(r)
  {
  }

  /** Handling the engine's messages changes nothing but what it delivers. */
  lemma HandleBooks(s: State)
    requires !s.log.fault && (s.inMsgs != [] ==> s.conn.mig == Done && s.conn.attach != ToApp)
    ensures var r := HandleInMsgs(s);
            && !r.log.fault && Queued(r) == Queued(s) && Unheld(r) == Unheld(s) && r.eng == s.eng
            && r.log.delivered + r.inMsgs == s.log.delivered + s.inMsgs
            && r == s.(conn := s.conn.(attach := r.conn.attach, handler := r.conn.handler),
                       log := s.log.(delivered := r.log.delivered), inMsgs := r.inMsgs)
            && (OneOwner(s) ==> OneOwner(r))
  {
  }

  lemma SweepKeepsInv(s: State)
    requires Inv(s)
    ensures Inv(Next(s, Sweep))
  {
    SweepShape(s);
    HandleBooks(s);
    hide Shape, Frozen, Queued, Moving, Unheld, HandleInMsgs, OneOwner;
  }

  lemma SweepShape(s: State)
    requires Shape(s)
    ensures Shape(HandleInMsgs(s)) && (Frozen(HandleInMsgs(s)) <==> Frozen(s))
    ensures s.inMsgs != [] ==> s.conn.mig == Done && s.conn.attach != ToApp
  {
  }

  lemma HandleKeepsInv(s: State, engineLoop: bool)
    requires Inv(s) && Runnable(s, engineLoop) && Head(s, engineLoop).HandleMsgs?
    ensures Inv(HandleInMsgs(Popped(s, engineLoop)))
  {
    ShapeOrdered(s);
    PoppedBooks(s, engineLoop);
    HandleShape(s, engineLoop);
    assert OneOwner(Popped(s, engineLoop));
    HandleBooks(Popped(s, engineLoop));
    var p := Popped(s, engineLoop);
    Handled(s, p, HandleInMsgs(p));
  }

  lemma Handled(s: State, p: State, r: State)
    requires Inv(s) && p == s.(app := p.app, close := p.close, eng := p.eng) && !Frozen(s) && !s.conn.closing && CloseReaches(p)
    requires r == p.(conn := p.conn.(attach := r.conn.attach, handler := r.conn.handler),
                     log := p.log.(delivered := r.log.delivered), inMsgs := r.inMsgs)
    requires Queued(r) == Queued(p) == Queued(s) && Unheld(r) == Unheld(p) == Unheld(s) && Moving(p.eng) == Moving(s.eng)
    requires r.log.delivered + r.inMsgs == s.log.delivered + s.inMsgs && Shape(r) && !Frozen(r) && OneOwner(r)
    ensures Inv(r)
  {
    hide Shape, Frozen, Queued, Moving, Unheld, OneOwner, Msgs, ForEngine;
    KeepsInv(s, r, []);
  }

  lemma HandleShape(s: State, engineLoop: bool)
    requires Shape(s) && Runnable(s, engineLoop) && Head(s, engineLoop).HandleMsgs?
    ensures var r := HandleInMsgs(Popped(s, engineLoop));
            Shape(r) && !Frozen(s) && !Frozen(r)
    ensures s.inMsgs != [] ==> s.conn.mig == Done && s.conn.attach != ToApp
  {
  }

  lemma ConnCleanedKeepsInv(s: State)
    requires Inv(s) && s.eng != [] && s.eng[0].ConnCleaned?
    ensures Inv(OnConnectionCleaned(Popped(s, true), s.eng[0].m))
  {
    ShapeOrdered(s);
    PoppedBooks(s, true);
    ConnCleanedShape(s);
    var r := OnConnectionCleaned(Popped(s, true), s.eng[0].m);
    ConnCleanedQueues(s.eng);
    MovedQueues(s);
    assert r.inMsgs + Moving(r.eng) == s.inMsgs + Moving(s.eng);
    hide Shape, Frozen, Inputs, Moving, Holding, Msgs, ForEngine, OnConnectionCleaned;
    KeepsInv(s, r, []);
  }

  lemma MovedQueues(s: State)
    requires Moved(s)
    ensures s.eng == [ConnCleaned(s.eng[0].m)] && s.inMsgs == []
  {
  }

  lemma ConnCleanedQueues(q: seq<Task>)
    requires |q| == 1 && q[0].ConnCleaned?
    ensures Inputs(q) == [] && Holding(q) == 0 && Moving(q) == [q[0].m]
    ensures Inputs([HandleMsgs, Cleaned(false)]) == [] && Holding([HandleMsgs, Cleaned(false)]) == 1
    ensures Moving([HandleMsgs, Cleaned(false)]) == []
  {
  }

  lemma ConnCleanedShape(s: State)
    requires Shape(s) && s.eng != [] && s.eng[0].ConnCleaned?
    ensures Moved(s)
    ensures var r := OnConnectionCleaned(Popped(s, true), s.eng[0].m);
            && r == s.(inMsgs := [s.eng[0].m], refs := s.refs + 1, eng := [HandleMsgs, Cleaned(false)],
                       conn := s.conn.(attach := ToEngine, handler := TheEngine, mig := Done, migrations := s.conn.migrations + 1))
            && Shape(r) && !Frozen(r) && !Frozen(s)
  {
  }

  /** A message runs in the loop its connection belongs to, which holds no other tasks in between. */
  lemma InputShape(s: State, engineLoop: bool)
    requires Shape(s) && Runnable(s, engineLoop) && Head(s, engineLoop).Input?
    requires !s.conn.closing
    ensures engineLoop == OnEngineLoop(s) && s.conn.mig != FirstMsg && s.conn.attach != ToEngine && Ordered(s) && !Frozen(s)
    ensures s.conn.attach == ToRemote ==>
              && s.conn.mig == Done && Shape(Popped(s, engineLoop).(refs := s.refs - 1)) && !Frozen(Popped(s, engineLoop))
    ensures s.conn.attach == ToApp ==> Sent(s)
  {
  }

  lemma RemoteInputKeepsInv(s: State, engineLoop: bool, route: Route)
    requires Inv(s) && Runnable(s, engineLoop)
    requires Head(s, engineLoop).Input? && s.conn.attach == ToRemote
    ensures Inv(OnInput(Popped(s, engineLoop).(refs := s.refs - 1), Head(s, engineLoop).m, engineLoop, route))
  {
    InputShape(s, engineLoop);
    PoppedBooks(s, engineLoop);
    RemoteQueues(s);
    RemoteHanded(s, Popped(s, engineLoop), Head(s, engineLoop).m, engineLoop, route);
  }

  lemma RemoteHanded(s: State, p: State, m: Msg, engineLoop: bool, route: Route)
    requires Inv(s) && p == s.(app := p.app, close := p.close, eng := p.eng) && engineLoop == OnEngineLoop(p)
    requires !s.conn.closing && CloseReaches(p)
    requires s.conn.attach == ToRemote && s.conn.mig == Done && s.inMsgs == [] && Moving(s.eng) == [] == Moving(p.eng)
    requires Queued(s) == [m] + Queued(p) && Unheld(p) == Unheld(s) + 1
    requires Shape(p.(refs := s.refs - 1)) && !Frozen(p) && !Frozen(s)
    ensures Inv(OnInput(p.(refs := s.refs - 1), m, engineLoop, route))
  {
    HandedAppend(s.log.handed, Handed(m, true));
    hide Shape, Frozen, Queued, Moving, Unheld, Msgs, ForEngine, Books;
    var t := p.(refs := s.refs - 1);
    var r := t.(log := t.log.(handed := s.log.handed + [Handed(m, true)], delivered := s.log.delivered + [m]));
    assert OnInput(t, m, engineLoop, route) == r;
    SameShape(t, r);
    SameShape(p, r);
    SameQueues(r, p);
    assert Msgs(s.log.handed) + ([m] + Queued(p)) == Msgs(s.log.handed) + [m] + Queued(p);
    KeepsInv(s, r, [m]);
  }

  lemma {:induction false} NoneMoving(q: seq<Task>)
    requires forall i :: 0 <= i < |q| ==> !q[i].ConnCleaned?
    ensures Moving(q) == []
  {
    if q != [] {
      NoneMoving(q[1..]);
    }
  }

  lemma RemoteQueues(s: State)
    requires Shape(s) && s.conn.attach == ToRemote
    ensures s.inMsgs == [] && Moving(s.eng) == []
  {
    if s.conn.own {
      assert s.eng != [] ==> s.eng == [s.eng[0]] + s.eng[1..];
      NoneMoving(s.eng);
    }
  }

  /** The state in which the app handles the message at the head of its loop. */
  function AtHandler(s: State): State
    requires s.app != []
  {
    s.(app := s.app[1..], close := Nearer(s.close), refs := s.refs - 1, conn := s.conn.(mig := if s.conn.mig == Init then FirstMsg else s.conn.mig))
  }

  /** The first message: what each finding of the app leads to. */
  function FirstResult(s: State, m: Msg, route: Route): State {
    var h := s.(log := s.log.(handed := s.log.handed + [Handed(m, route.OwnLoop? || route.SharedLoop?)]),
                app := [], close := Nearer(s.close), refs := s.refs - 1, conn := s.conn.(mig := FirstMsg));
    match route
    case OwnLoop => h.(conn := h.conn.(own := true, orphan := false, handler := Nobody, cleaned := true), eng := [ConnCleaned(m)])
    case SharedLoop =>
      h.(conn := h.conn.(own := false, orphan := false, attach := ToEngine, handler := TheEngine, mig := Done,
                         migrations := s.conn.migrations + 1),
         refs := s.refs, inMsgs := [m], app := [Cleaned(false), HandleMsgs])
    case NoEngine => h.(conn := h.conn.(mig := Init), refs := s.refs, app := [Cleaned(true)])
    case CloseApp =>
      h.(conn := h.conn.(mig := Done), refs := s.refs, app := [Cleaned(false)],
         close := if s.close.NotTold? then Waiting(1) else Nearer(s.close))
    case _ => h.(log := h.log.(ignoredFirst := true))
  }

  lemma FirstResults(s: State, route: Route)
    requires Sent(s) && !route.StopGraph?
    ensures AppHandles(AtHandler(s), s.app[0].m, route) == FirstResult(s, s.app[0].m, route)
  {
    hide AppHandles;
    assert s.app[1..] == [];
    var f, m := AtHandler(s), s.app[0].m;
    assert f == s.(app := [], close := Nearer(s.close), refs := s.refs - 1, conn := s.conn.(mig := FirstMsg));
    match route
    case OwnLoop => OwnLoopResult(f, m);
    case SharedLoop => SharedLoopResult(f, m);
    case _ => OtherResult(f, m, route);
  }

  lemma OwnLoopResult(f: State, m: Msg)
    requires f.conn.orphan && f.conn.mig == FirstMsg && f.eng == []
    ensures AppHandles(f, m, OwnLoop)
         == f.(log := f.log.(handed := f.log.handed + [Handed(m, true)]), eng := [ConnCleaned(m)],
               conn := f.conn.(own := true, orphan := false, handler := Nobody, cleaned := true))
  {
  }

  lemma SharedLoopResult(f: State, m: Msg)
    requires f.conn.orphan && f.conn.mig == FirstMsg && f.app == [] && f.inMsgs == []
    ensures AppHandles(f, m, SharedLoop)
         == f.(log := f.log.(handed := f.log.handed + [Handed(m, true)]),
               conn := f.conn.(own := false, orphan := false, attach := ToEngine, handler := TheEngine, mig := Done,
                               migrations := f.conn.migrations + 1),
               refs := f.refs + 1, inMsgs := [m], app := [Cleaned(false), HandleMsgs])
  {
  }

  lemma OtherResult(f: State, m: Msg, route: Route)
    requires f.conn.mig == FirstMsg && f.app == [] && f.conn.attach == ToApp
    requires !route.OwnLoop? && !route.SharedLoop? && !route.StopGraph?
    ensures var h, r := f.(log := f.log.(handed := f.log.handed + [Handed(m, false)])), AppHandles(f, m, route);
            match route
            case NoEngine => r == h.(conn := h.conn.(mig := Init), refs := f.refs + 1, app := [Cleaned(true)])
            case CloseApp => r == h.(conn := h.conn.(mig := Done), refs := f.refs + 1, app := [Cleaned(false)],
                                     close := if f.close.NotTold? then Waiting(1) else f.close)
            case _ => r == h.(log := h.log.(ignoredFirst := true))
  {
  }

  lemma FirstShape(s: State, route: Route)
    requires Sent(s) && !route.StopGraph? && CloseReaches(s) && s.close != Waiting(0)
    ensures var r := FirstResult(s, s.app[0].m, route);
            Shape(r) && (Frozen(r) <==> route.Ignored?) && CloseReaches(r)
  {
    hide AppHandles, AtHandler;
    var r := FirstResult(s, s.app[0].m, route);
    match route
    case OwnLoop => assert Moved(r);
    case SharedLoop => assert Arrived(r, r.app);
    case NoEngine => assert BeingReset(r);
    case CloseApp => assert ClosingApp(r);
    case Ignored => assert Frozen(r);
  }

  /** The first message is in one place afterwards, and so is the connection. */
  lemma FirstBooks(s: State, m: Msg, route: Route)
    requires Sent(s) && s.app[0].m == m && OneOwner(s) && s.conn.migrations == 0
    ensures var r := FirstResult(s, m, route);
            && Queued(s) == [m] + s.side.pending && Queued(r) == s.side.pending && Unheld(r) == Unheld(s)
            && Moving(s.eng) == [] && r.inMsgs + Moving(r.eng) == (if route.OwnLoop? || route.SharedLoop? then [m] else [])
            && OneOwner(r)
  {
    hide Queued, Unheld, Moving;
    assert s.app == [Input(m)];
    SmallQueues(s, m);
    var r := FirstResult(s, m, route);
    match route
    case OwnLoop => SmallQueues(r, m);
    case SharedLoop => SmallQueues(r, m);
    case _ => SmallQueues(r, m);
  }

  lemma SentKeepsInv(s: State, route: Route)
    requires Inv(s) && Sent(s) && s.close != Waiting(0) && !route.StopGraph?
    ensures Inv(AppHandles(AtHandler(s), s.app[0].m, route))
  {
    var m := s.app[0].m;
    FirstResults(s, route);
    FirstShape(s, route);
    FirstBooks(s, m, route);
    var x := Handed(m, route.OwnLoop? || route.SharedLoop?);
    HandedAppend(s.log.handed, x);
    FirstKept(s, FirstResult(s, m, route), m, x, if x.toEngine then [m] else []);
  }

  lemma FirstKept(s: State, r: State, m: Msg, x: Handed, more: seq<Msg>)
    requires Inv(s) && Shape(r) && OneOwner(r) && s.inMsgs == [] == Moving(s.eng)
    requires !s.conn.closing && !r.conn.closing && r.log.dropped == s.log.dropped && CloseReaches(r)
    requires r.log.arrivals == s.log.arrivals && r.log.handed == s.log.handed + [x] && r.log.delivered == s.log.delivered
    requires Msgs(r.log.handed) == Msgs(s.log.handed) + [m] && ForEngine(r.log.handed) == ForEngine(s.log.handed) + more
    requires Queued(s) == [m] + s.side.pending && Queued(r) == s.side.pending && Unheld(r) == Unheld(s)
    requires r.inMsgs + Moving(r.eng) == more
    requires !r.log.fault && !r.log.lost && !r.log.endless && (r.log.ignoredFirst <==> Frozen(r))
    ensures Inv(r)
  {
    hide Queued, Unheld, Msgs, ForEngine, Moving, Shape, Frozen, OneOwner;
    assert Msgs(s.log.handed) + ([m] + s.side.pending) == Msgs(s.log.handed) + [m] + s.side.pending;
    KeepsInv(s, r, more);
  }

  /** The bookkeeping of the short queues around the first message. */
  lemma SmallQueues(s: State, m: Msg)
    requires s.eng == [] || s.eng == [ConnCleaned(m)]
    requires s.app == [Input(m)] || s.app == [] || (|s.app| == 1 && s.app[0].Cleaned?) || s.app == [Cleaned(false), HandleMsgs]
    ensures Queued(s) == (if s.app == [Input(m)] then [m] + s.side.pending else s.side.pending)
    ensures Moving(s.eng) == (if s.eng == [] then [] else [m])
    ensures Unheld(s) == s.refs - |s.side.impl| - (if s.app == [] then 0 else 1)
  {
    if s.app == [Cleaned(false), HandleMsgs] {
      assert s.app == [Cleaned(false)] + [HandleMsgs];
      InputsAppend([Cleaned(false)], HandleMsgs);
      HoldingAppend([Cleaned(false)], HandleMsgs);
    }
    assert Inputs(s.eng) == [] && Holding(s.eng) == 0;
    assert Inputs(s.app) == (if s.app == [Input(m)] then [m] else []);
  }

  lemma InputKeepsInv(s: State, engineLoop: bool, route: Route)
    requires Inv(s) && !s.conn.closing && Runnable(s, engineLoop) && Head(s, engineLoop).Input?
    requires s.conn.attach == ToApp ==> !route.StopGraph?
    ensures Inv(OnInput(Popped(s, engineLoop).(refs := s.refs - 1), Head(s, engineLoop).m, engineLoop, route))
  {
    InputShape(s, engineLoop);
    if s.conn.attach == ToRemote {
      RemoteInputKeepsInv(s, engineLoop, route);
    } else {
      hide Inv, Shape, AppHandles;
      assert OnInput(Popped(s, false).(refs := s.refs - 1), s.app[0].m, false, route)
          == AppHandles(AtHandler(s), s.app[0].m, route);
      SentKeepsInv(s, route);
    }
  }

  /** Every safe step of every thread keeps the invariants. */
  lemma StepKeepsInv(s: State, e: Step)
    requires Inv(s) && Enabled(s, e) && Safe(s, e)
    ensures Inv(Next(s, e))
  {
    assert Shape(s);
    hide Inv, Shape;
    match e
    case Arrive(m) => ArriveKeepsInv(s, m);
    case AppTold => AppToldKeepsInv(s);
    case ImplTask => ImplKeepsInv(s);
    case CloseTask => CloseTaskKeepsInv(s);
    case Sweep => SweepKeepsInv(s);
    case AppTask(route) => TaskKeepsInv(s, false, route);
    case EngTask =>
      TaskLoops(s, true);
      TaskKeepsInv(s, true, Ignored);
  }

  lemma TaskKeepsInv(s: State, engineLoop: bool, route: Route)
    requires Inv(s) && Runnable(s, engineLoop)
    requires Head(s, engineLoop).Input? && s.conn.attach == ToApp && !s.conn.closing ==> !route.StopGraph?
    ensures Inv(RunTask(Popped(s, engineLoop), Head(s, engineLoop), engineLoop, route))
  {
    hide Shape, OnInput, HandleInMsgs, OnConnectionCleaned, Books, OneOwner, Frozen;
    TaskLoops(s, engineLoop);
    if s.conn.closing {
      DroppingKeepsInv(s, AppTask(route));
      return;
    }
    var p, t := Popped(s, engineLoop), Head(s, engineLoop);
    var r := RunTask(p, t, engineLoop, route);
    RunTaskCases(p, t, engineLoop, route);
    assert p.refs == s.refs && (engineLoop ==> t == s.eng[0] && p == Popped(s, true));
    hide Inv, RunTask, Popped, Head;
    if t.Input? {
      InputKeepsInv(s, engineLoop, route);
    } else if t.Cleaned? {
      CleanedKeepsInv(s, engineLoop);
    } else if t.HandleMsgs? {
      HandleKeepsInv(s, engineLoop);
    } else {
      ConnCleanedKeepsInv(s);
    }
    assert Inv(r);
  }

  lemma RunTaskCases(p: State, t: Task, engineLoop: bool, route: Route)
    ensures var r := RunTask(p, t, engineLoop, route);
            && (t.Input? ==> r == OnInput(p.(refs := p.refs - 1), t.m, engineLoop, route))
            && (t.Cleaned? ==> r == p.(side := p.side.(impl := p.side.impl + [t.reset])))
            && (t.HandleMsgs? ==> r == HandleInMsgs(p))
            && (t.ConnCleaned? ==> r == OnConnectionCleaned(p, t.m))
  {
    hide OnInput, HandleInMsgs, OnConnectionCleaned;
  }

  lemma TaskLoops(s: State, engineLoop: bool)
    requires Shape(s) && Runnable(s, engineLoop)
    ensures s.conn.closing ==> !engineLoop
    ensures Head(s, engineLoop).ConnCleaned? ==> engineLoop
    ensures Head(s, engineLoop).Input? ==> engineLoop == OnEngineLoop(s)
  {
  }

  // ----- What runs achieve -----

  lemma AcceptedInv(close: Close)
    requires close.Waiting? ==> close.ahead == 0
    ensures Inv(Accepted(close)) <==> close != Ran
  {
    assert Idle(Accepted(close));
  }

  /** An assertion of the program fails, a message is lost, a loop never ends, or
      the connection has two owners. */
  predicate Wrong(s: State) {
    s.log.fault || s.log.lost || s.log.endless || (s.conn.orphan && s.conn.attach != ToApp)
  }

  ghost predicate Run(ss: seq<State>, es: seq<Step>) {
    && |ss| == |es| + 1
    && forall i {:trigger es[i]} :: 0 <= i < |es| ==> Enabled(ss[i], es[i]) && ss[i + 1] == Next(ss[i], es[i])
  }

  lemma {:induction false} RunKeepsInv(ss: seq<State>, es: seq<Step>, i: nat)
    requires Run(ss, es) && i < |ss| && Inv(ss[0])
    requires forall j {:trigger es[j]} :: 0 <= j < |es| ==> Safe(ss[j], es[j])
    ensures Inv(ss[i])
  {
    hide Inv, Safe, Next;
    if i > 0 {
      RunKeepsInv(ss, es, i - 1);
      assert Safe(ss[i - 1], es[i - 1]);
      StepKeepsInv(ss[i - 1], es[i - 1]);
    }
  }

  /** In every run of safe steps nothing goes wrong; what reached the app or the
      engine is a prefix of what arrived; what the engine dispatched is a prefix of
      what is meant for it; every message that arrived was handed over, waits, or was
      dropped because the app closes; and the connection has moved at most once. */
  lemma RunsInOrder(ss: seq<State>, es: seq<Step>, i: nat, close: Close)
    requires close == NotTold || close == Waiting(0)
    requires Run(ss, es) && i < |ss| && ss[0] == Accepted(close)
    requires forall j {:trigger es[j]} :: 0 <= j < |es| ==> Safe(ss[j], es[j])
    ensures var s := ss[i];
            && !Wrong(s) && s.conn.migrations <= 1
            && Msgs(s.log.handed) <= s.log.arrivals
            && s.log.delivered <= ForEngine(s.log.handed)
            && Conserved(s) && (s.log.dropped != [] ==> s.conn.closing)
            && Unheld(s) == 0
  {
    AcceptedInv(close);
    RunKeepsInv(ss, es, i);
    hide Shape, Msgs, ForEngine, Queued, Unheld, Moving;
    var s := ss[i];
    assert Msgs(s.log.handed) <= Msgs(s.log.handed) + Queued(s);
    assert s.log.delivered <= s.log.delivered + (s.inMsgs + Moving(s.eng));
    assert s.log.delivered + (s.inMsgs + Moving(s.eng)) == s.log.delivered + s.inMsgs + Moving(s.eng);
  }

  /** When no task is left and the connection is not closing, everything that arrived
      has been handed over and everything for the engine dispatched, unless the first
      message was ignored; then, and only then, the protocol holds back all that follows. */
  lemma NothingLeft(s: State)
    requires Inv(s) && !s.conn.closing && s.app == [] && s.eng == [] && s.side.impl == []
    ensures s.side.ext == FirstMsg <==> s.log.ignoredFirst
    ensures !s.log.ignoredFirst ==> Msgs(s.log.handed) == s.log.arrivals && s.log.delivered == ForEngine(s.log.handed)
  {
    assert s.side.ext == FirstMsg <==> Frozen(s);
    if !s.log.ignoredFirst {
      assert s.side.pending == [] && s.inMsgs == [];
      assert Queued(s) == [] && Moving(s.eng) == [];
      hide Msgs, ForEngine, Queued, Moving, Shape;
      assert Msgs(s.log.handed) + [] == Msgs(s.log.handed);
      assert s.log.delivered + [] + [] == s.log.delivered;
    }
  }

  /** Is a connection that the close task has left an orphan closing? Not if it is `late`. */
  predicate Reached(s: State, late: bool) {
    if late then s.close == Ran && !s.conn.closing else s.close == Ran && s.conn.orphan ==> s.conn.closing
  }

  lemma NextReached(s: State, e: Step, late: bool)
    requires Reached(s, late) && Enabled(s, e)
    ensures Reached(Next(s, e), late)
  {
    hide RunTask, OnInputAsync, Resume;
    match e
    case Arrive(m) => AsyncReaches(s.(log := s.log.(arrivals := s.log.arrivals + [m])), m);
    case ImplTask => ResumeReaches(s.(side := s.side.(impl := s.side.impl[1..])), s.side.impl[0]);
    case AppTask(route) => TaskReaches(Popped(s, false), Head(s, false), false, route);
    case EngTask => TaskReaches(Popped(s, true), Head(s, true), true, Ignored);
    case _ =>
  }

  lemma AsyncReaches(s: State, m: Msg)
    ensures var r := OnInputAsync(s, m); r.conn == s.conn && r.close == s.close
  {
    hide OnEngineLoop;
  }

  lemma {:induction false} AllAsyncReaches(s: State, ms: seq<Msg>)
    ensures var r := AllAsync(s, ms); r.conn == s.conn && r.close == s.close
    decreases |ms|
  {
    hide OnInputAsync;
    if ms != [] {
      AsyncReaches(s, ms[0]);
      AllAsyncReaches(OnInputAsync(s, ms[0]), ms[1..]);
    }
  }

  lemma ResumeReaches(s: State, reset: bool)
    ensures var r := Resume(s, reset); r.conn == s.conn && r.close == s.close
  {
    var t := s.(side := s.side.(ext := if reset then Init else Done, pending := []), refs := s.refs - 1);
    AllAsyncReaches(t, s.side.pending);
    if s.side.pending != [] {
      AsyncReaches(t, s.side.pending[0]);
    }
    hide OnInputAsync, AllAsync;
  }

  /** No task of a loop makes an orphan, starts to close or runs the close task. */
  lemma TaskReaches(s: State, t: Task, engineLoop: bool, route: Route)
    ensures var r := RunTask(s, t, engineLoop, route);
            && r.conn.closing == s.conn.closing && (r.conn.orphan ==> s.conn.orphan) && (r.close == Ran <==> s.close == Ran)
  {
    RunTaskCases(s, t, engineLoop, route);
    hide RunTask, AppHandles, OnEngineLoop;
    if t.Input? {
      HandlingReaches(s.(refs := s.refs - 1, conn := s.conn.(mig := if s.conn.mig == Init then FirstMsg else s.conn.mig)), t.m, route);
    }
  }

  lemma HandlingReaches(s: State, m: Msg, route: Route)
    ensures var r := AppHandles(s, m, route);
            && r.conn.closing == s.conn.closing && (r.conn.orphan ==> s.conn.orphan) && (r.close == Ran <==> s.close == Ran)
  {
    forall t: State, b {:trigger Notify(t, b)} ensures Notify(t, b).conn == t.conn && Notify(t, b).close == t.close {
      PostKeeps(t, OnEngineLoop(t), Cleaned(b));
    }
    forall t: State, n {:trigger Append(t, n)} ensures Append(t, n).conn == t.conn && Append(t, n).close == t.close {
      PostKeeps(t.(inMsgs := t.inMsgs + [n]), t.conn.own, HandleMsgs);
    }
    hide Notify, Append;
  }

  /** A connection that is an orphan when or after the close task runs is told to
      close if and only if it was accepted before the task ran: one that is accepted
      later is told nothing for good. */
  lemma {:induction false} ClosedExactly(ss: seq<State>, es: seq<Step>, i: nat, close: Close)
    requires close.Waiting? ==> close.ahead == 0
    requires Run(ss, es) && i < |ss| && ss[0] == Accepted(close)
    ensures Reached(ss[i], close == Ran)
    ensures ss[i].close == Ran && ss[i].conn.orphan ==> (ss[i].conn.closing <==> close != Ran)
  {
    hide Next, Enabled;
    if i > 0 {
      ClosedExactly(ss, es, i - 1, close);
      assert Enabled(ss[i - 1], es[i - 1]);
      NextReached(ss[i - 1], es[i - 1], close == Ran);
    }
  }

  /** A connection to which nothing is listening any more: its first message was
      ignored, or it is closing. */
  ghost predicate Deaf(s: State) {
    Inv(s) && (Frozen(s) || s.conn.closing)
  }

  /** Every step leaves a frozen connection frozen until it is closed. */
  lemma FrozenStays(s: State, e: Step)
    requires Inv(s) && Frozen(s) && Enabled(s, e)
    ensures Safe(s, e) && (Frozen(Next(s, e)) || Next(s, e).conn.closing) && Next(s, e).log.handed == s.log.handed
  {
    hide Shape, Books;
  }

  /** After an ignored first message no other ever reaches the app or an engine,
      whatever arrives and whatever runs: the wait ends only with the connection. */
  lemma {:induction false} DeafForEver(ss: seq<State>, es: seq<Step>, i: nat)
    requires Run(ss, es) && i < |ss| && Deaf(ss[0])
    ensures Deaf(ss[i]) && ss[i].log.handed == ss[0].log.handed
    ensures Frozen(ss[i]) || ss[i].conn.closing
  {
    hide Inv, Frozen, Next, Enabled, Safe;
    if i > 0 {
      DeafForEver(ss, es, i - 1);
      var s, e := ss[i - 1], es[i - 1];
      if s.conn.closing {
        DroppingKeepsInv(s, e);
      } else {
        FrozenStays(s, e);
        StepKeepsInv(s, e);
      }
    }
  }

  /** What a step may change: a first message is noted, a reset takes it back, what
      is done stays done, and the connection moves to the engine once. */
  ghost predicate Advances(s: State, r: State) {
    && (s.conn.mig == Done ==> r.conn.mig == Done)
    && (s.conn.mig == FirstMsg ==> r.conn.mig != Init)
    && (r.conn.migrations > s.conn.migrations ==> s.conn.mig != Done && r.conn.mig == Done && !r.conn.orphan)
    && (s.conn.attach != ToApp ==> r.conn.attach != ToApp)
  }

  lemma TaskAdvances(s: State, engineLoop: bool, route: Route)
    requires Inv(s) && Runnable(s, engineLoop)
    requires Head(s, engineLoop).Input? && s.conn.attach == ToApp && !s.conn.closing ==> !route.StopGraph?
    ensures Advances(s, RunTask(Popped(s, engineLoop), Head(s, engineLoop), engineLoop, route))
  {
    hide Books, Frozen;
    if s.conn.closing {
      TaskLoops(s, engineLoop);
      DroppingKeepsInv(s, AppTask(route));
    } else if Head(s, engineLoop).Input? {
      InputShape(s, engineLoop);
      hide Shape;
    } else if Head(s, engineLoop).ConnCleaned? {
      TaskLoops(s, engineLoop);
      ConnCleanedShape(s);
      hide Shape, OnConnectionCleaned;
    } else {
      HandleableShape(s);
      hide Shape;
    }
  }

  lemma HandleableShape(s: State)
    requires Shape(s)
    ensures s.inMsgs != [] ==> s.conn.mig == Done && s.conn.attach != ToApp
  {
  }

  lemma StepAdvances(s: State, e: Step)
    requires Inv(s) && Enabled(s, e) && Safe(s, e)
    ensures Advances(s, Next(s, e))
  {
    hide Books, RunTask;
    match e
    case ImplTask =>
      if s.conn.closing {
        DroppingKeepsInv(s, e);
      } else if !s.side.impl[0] {
        ThawedShape(s);
        AllAsyncKeeps(Thawed(s), s.side.pending);
        hide Shape;
      }
    case AppTask(route) => TaskAdvances(s, false, route);
    case EngTask =>
      TaskLoops(s, true);
      hide Shape;
      TaskAdvances(s, true, Ignored);
    case Arrive(_) => hide Shape;
    case AppTold => hide Shape;
    case CloseTask => hide Shape;
    case Sweep => HandleableShape(s);
  }

  // ----- Steps that are not safe -----

  predicate Plays(s: State, es: seq<Step>)
    decreases |es|
  {
    es != [] ==> Enabled(s, es[0]) && Plays(Next(s, es[0]), es[1..])
  }

  function After(s: State, es: seq<Step>): State
    requires Plays(s, es)
    decreases |es|
  {
    if es == [] then s else After(Next(s, es[0]), es[1..])
  }

  /** The condition `Safe` is exact: a step that does not meet it can be followed by
      steps after which something has gone wrong. */
  lemma UnsafeGoesWrong(s: State, e: Step) returns (es: seq<Step>)
    requires Inv(s) && Enabled(s, e) && !Safe(s, e)
    ensures Plays(Next(s, e), es) && Wrong(After(Next(s, e), es))
  {
    var n := Next(s, e);
    if e.ImplTask? {
      es := [];
    } else {
      PushedTooEarly(s, e.route);
      hide Inv, Safe;
      es := [Sweep];
      assert After(Next(n, Sweep), []) == Next(n, Sweep);
    }
  }

  /** A first message pushed to an engine by a connection that did not move there. */
  lemma PushedTooEarly(s: State, route: Route)
    requires Inv(s) && Enabled(s, AppTask(route)) && !Safe(s, AppTask(route))
    ensures Next(Next(s, AppTask(route)), Sweep).log.fault
  {
    assert Sent(s);
    PushedUnmoved(s);
    hide Inv, Shape;
  }

  lemma PushedUnmoved(s: State)
    requires Sent(s) && s.close != Waiting(0)
    ensures var n := Next(s, AppTask(StopGraph));
            n.inMsgs != [] && n.conn.mig == FirstMsg
  {
    hide Frozen;
  }

  // ----- Runs that reach what goes wrong -----

  /** Three messages, the first for a graph that does not exist: the notice of the
      reset finds two held back, and the second is lost. */
  lemma ResetLosesOne() returns (ss: seq<State>)
    ensures Run(ss, [Arrive(1), Arrive(2), Arrive(3), AppTask(NoEngine), AppTask(Ignored), ImplTask])
    ensures ss[0] == Accepted(NotTold) && !Safe(ss[5], ImplTask) && !ss[5].log.lost && ss[6].log.lost
  {
    var a := Accepted(NotTold);
    var b := Next(a, Arrive(1));
    var c := Next(b, Arrive(2));
    var d := Next(c, Arrive(3));
    assert b.app == [Input(1)] && c.side.pending == [2] && d.side.pending == [2, 3];
    var e := Next(d, AppTask(NoEngine));
    var f := Next(e, AppTask(Ignored));
    assert e.app == [Cleaned(true)] && f.side.impl == [true] && f.side.pending == [2, 3];
    var g := Next(f, ImplTask);
    assert g.log.lost;
    hide Next, Enabled;
    ss := [a, b, c, d, e, f, g];
  }

  /** A first message that stops a graph: when the engine handles it, an assertion fails. */
  lemma StopGraphFails() returns (ss: seq<State>)
    ensures Run(ss, [Arrive(1), AppTask(StopGraph), Sweep]) && ss[0] == Accepted(NotTold)
    ensures !Safe(ss[1], AppTask(StopGraph)) && ss[3].log.fault
  {
    var a := Accepted(NotTold);
    var b := Next(a, Arrive(1));
    assert b.app == [Input(1)];
    var c := Next(b, AppTask(StopGraph));
    assert c.inMsgs == [1] && c.conn.mig == FirstMsg;
    var d := Next(c, Sweep);
    assert d.log.fault;
    hide Next, Enabled;
    ss := [a, b, c, d];
  }

  /** A first message that is ignored freezes the connection. */
  lemma IgnoredFreezes() returns (ss: seq<State>)
    ensures Run(ss, [Arrive(1), AppTask(Ignored)]) && ss[0] == Accepted(NotTold)
    ensures Frozen(ss[2]) && Deaf(ss[2])
  {
    var a := Accepted(NotTold);
    var b := Next(a, Arrive(1));
    assert b.app == [Input(1)];
    var c := Next(b, AppTask(Ignored));
    assert Frozen(c);
    AcceptedInv(NotTold);
    StepKeepsInv(a, Arrive(1));
    StepKeepsInv(b, AppTask(Ignored));
    hide Inv, Frozen, Next, Enabled;
    ss := [a, b, c];
  }

  // ----- The loop over the messages held back -----

  /** `ten_list_clear` on the messages held back. */
  function Cleared(s: State): State {
    s.(side := s.side.(pending := []))
  }

  /** The loop as it runs: `i` is the current node, and `next` tells whether there was
      a node behind it when the loop arrived there; the messages that the body holds
      back again join the same list. No end within `fuel` rounds is `Endless`. */
  function DrainFrom(s: State, i: nat, next: bool, fuel: nat): (r: Drained)
    requires i < |s.side.pending|
    decreases fuel
  {
    var b := OnInputAsync(s, s.side.pending[i]);
    if !next then Ended(Cleared(b))
    else if fuel == 0 || i + 1 >= |b.side.pending| then Endless
    else DrainFrom(b, i + 1, i + 2 < |b.side.pending|, fuel - 1)
  }

  datatype Drained = Ended(s: State) | Endless

  function Drain(s: State, fuel: nat): Drained {
    if s.side.pending == [] then Ended(s) else DrainFrom(s, 0, |s.side.pending| > 1, fuel)
  }

  lemma AsyncAside(s: State, m: Msg)
    requires s.side.ext != FirstMsg || s.conn.closing
    ensures OnInputAsync(Cleared(s), m) == Cleared(OnInputAsync(s, m))
  {
    if OnEngineLoop(s) {
    } else {
    }
  }

  lemma AsyncKeeps(s: State, m: Msg)
    ensures OnInputAsync(s, m).log.lost == s.log.lost && OnInputAsync(s, m).log.endless == s.log.endless
    ensures s.side.ext != FirstMsg || s.conn.closing ==> OnInputAsync(s, m).side.pending == s.side.pending
    ensures OnInputAsync(s, m).conn == s.conn
    ensures s.side.ext == Done ==> OnInputAsync(s, m).side.ext == Done
  {
    PostKeeps(s, OnEngineLoop(s), Input(m));
    hide Post;
  }

  lemma PostKeeps(s: State, toEngineLoop: bool, t: Task)
    ensures var r := Post(s, toEngineLoop, t);
            r.log == s.log && r.conn == s.conn && r.side == s.side && r.close == s.close
  {
  }

  lemma NoneAsync(s: State, ms: seq<Msg>)
    requires ms == []
    ensures AllAsync(s, ms) == s
  {
  }

  lemma {:induction false} DrainDone(s: State, i: nat, fuel: nat)
    requires (s.side.ext == Done || s.conn.closing) && i < |s.side.pending| && fuel >= |s.side.pending| - i
    ensures DrainFrom(s, i, i + 1 < |s.side.pending|, fuel) == Ended(AllAsync(Cleared(s), s.side.pending[i..]))
    decreases |s.side.pending| - i
  {
    var b, ms := OnInputAsync(s, s.side.pending[i]), s.side.pending[i..];
    AsyncAside(s, s.side.pending[i]);
    AsyncKeeps(s, s.side.pending[i]);
    assert ms[0] == s.side.pending[i] && ms[1..] == s.side.pending[i + 1..];
    assert AllAsync(Cleared(s), ms) == AllAsync(Cleared(b), ms[1..]);
    hide OnInputAsync, AllAsync;
    if i + 1 < |s.side.pending| {
      DrainDone(b, i + 1, fuel - 1);
    } else {
      NoneAsync(Cleared(b), ms[1..]);
    }
  }

  lemma {:induction false} DrainGrows(s: State, i: nat, fuel: nat)
    requires s.side.ext == FirstMsg && !s.conn.closing && i + 1 < |s.side.pending|
    ensures DrainFrom(s, i, true, fuel) == Endless
    decreases fuel
  {
    if fuel > 0 {
      DrainGrows(OnInputAsync(s, s.side.pending[i]), i + 1, fuel - 1);
    }
  }

  /** `Resume` is what the loop comes to: after a reset two messages become one, and
      with three or more the loop feeds itself for ever, unless the connection is
      closing and the loop drops them all. */
  lemma ResumeIsLoop(s: State, reset: bool, fuel: nat)
    requires fuel > |s.side.pending| && !s.log.lost && !s.log.endless
    ensures var t := s.(side := s.side.(ext := if reset then Init else Done), refs := s.refs - 1);
            var r := Resume(s, reset);
            if r.log.endless then Drain(t, fuel) == Endless
            else Drain(t, fuel) == Ended(r.(log := r.log.(lost := false)))
    ensures Resume(s, reset).log.endless <==> reset && !s.conn.closing && |s.side.pending| > 2
    ensures Resume(s, reset).log.lost <==> reset && !s.conn.closing && |s.side.pending| == 2
  {
    if s.side.pending == [] {
    } else if !reset || s.conn.closing {
      var t := s.(side := s.side.(ext := if reset then Init else Done), refs := s.refs - 1);
      AllAsyncSame(Cleared(t), s.side.pending);
      DrainDone(t, 0, fuel);
      assert s.side.pending[0..] == s.side.pending;
    } else {
      ResetLoop(s, s.(side := s.side.(ext := Init), refs := s.refs - 1), fuel);
    }
  }

  lemma ResetLoop(s: State, t: State, fuel: nat)
    requires t == s.(side := s.side.(ext := Init), refs := s.refs - 1) && s.side.pending != [] && fuel > |s.side.pending|
    requires !s.log.lost && !s.log.endless && !s.conn.closing
    ensures var r := Resume(s, true);
            && r == OnInputAsync(Cleared(t), s.side.pending[0]).(log := r.log)
            && r.log == s.log.(lost := r.log.lost, endless := r.log.endless)
            && (r.log.lost <==> |s.side.pending| == 2) && (r.log.endless <==> |s.side.pending| > 2)
            && (if r.log.endless then Drain(t, fuel) == Endless else Drain(t, fuel) == Ended(r.(log := r.log.(lost := false))))
  {
    var b := OnInputAsync(t, s.side.pending[0]);
    AsyncAside(t, s.side.pending[0]);
    AsyncKeeps(t, s.side.pending[0]);
    AsyncKeeps(Cleared(t), s.side.pending[0]);
    assert b.side.ext == FirstMsg;
    hide OnEngineLoop;
    if |s.side.pending| == 2 {
      assert DrainFrom(b, 1, false, fuel - 1) == Ended(Cleared(OnInputAsync(b, s.side.pending[1])));
    } else if |s.side.pending| > 2 {
      DrainGrows(b, 1, fuel - 1);
    }
  }

  lemma {:induction false} AllAsyncSame(s: State, ms: seq<Msg>)
    ensures AllAsync(s, ms).log.lost == s.log.lost && AllAsync(s, ms).log.endless == s.log.endless
    decreases |ms|
  {
    hide OnInputAsync;
    if ms != [] {
      AsyncKeeps(s, ms[0]);
      AllAsyncSame(OnInputAsync(s, ms[0]), ms[1..]);
    }
  }
}
