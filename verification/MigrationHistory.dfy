/**
 A connection as one knows it from the steps of a run: what has arrived, what was
 handed over, whether the app was told to close, and when its close task runs.  In
 every run the records of module Migration say just that.
 */
module MigrationHistory {
  import opened Migration

  // ----- What a single step means -----

  /** Does a message of the connection that closes the app reach the app in this step? */
  predicate AsksToClose(s: State, e: Step) {
    && e.AppTask? && e.route.CloseApp? && s.app != [] && s.app[0].Input?
    && s.conn.attach == ToApp && s.conn.mig != FirstMsg && !s.conn.closing
  }

  /** Does somebody tell the app to close? */
  predicate TellsApp(s: State, e: Step) {
    e.AppTold? || AsksToClose(s, e)
  }

  /** What the step hands over to the app or to the engine. */
  function HandedBy(s: State, e: Step): (h: seq<Handed>) {
    if s.conn.closing then []
    else if e.AppTask? && s.app != [] && s.app[0].Input? then
      [Handed(s.app[0].m, s.conn.attach != ToApp || (!e.route.NoEngine? && !e.route.CloseApp? && !e.route.Ignored?))]
    else if e.EngTask? && s.eng != [] && s.eng[0].Input? then [Handed(s.eng[0].m, true)]
    else []
  }

  /** What a closing connection drops in this step. */
  function DroppedBy(s: State, e: Step): (ms: seq<Msg>) {
    match e
    case Arrive(m) => [m]
    case ImplTask => s.side.pending
    case AppTask(_) => if s.app != [] && s.app[0].Input? then [s.app[0].m] else []
    case _ => []
  }

  // ----- What the first `i` steps of a run mean -----

  function ArrivedIn(es: seq<Step>, i: nat): (ms: seq<Msg>)
    requires i <= |es|
  {
    if i == 0 then [] else ArrivedIn(es, i - 1) + if es[i - 1].Arrive? then [es[i - 1].m] else []
  }

  function HandedIn(ss: seq<State>, es: seq<Step>, i: nat): (h: seq<Handed>)
    requires i <= |es| < |ss|
  {
    if i == 0 then [] else HandedIn(ss, es, i - 1) + HandedBy(ss[i - 1], es[i - 1])
  }

  predicate WasTold(ss: seq<State>, es: seq<Step>, i: nat)
    requires i <= |es| < |ss|
  {
    i > 0 && (WasTold(ss, es, i - 1) || TellsApp(ss[i - 1], es[i - 1]))
  }

  /** How many tasks for this connection the loop of the app runs in the steps from `j` to `i`. */
  function AppTasksRun(es: seq<Step>, j: nat, i: nat): (k: nat)
    requires j <= i <= |es|
  {
    if i == j then 0 else AppTasksRun(es, j, i - 1) + if es[i - 1].AppTask? then 1 else 0
  }

  // ----- Single steps -----

  lemma AsyncLogs(s: State, m: Msg)
    ensures OnInputAsync(s, m).log.arrivals == s.log.arrivals
  {
    hide OnEngineLoop;
  }

  lemma {:induction false} AllAsyncLogs(s: State, ms: seq<Msg>)
    ensures AllAsync(s, ms).log.arrivals == s.log.arrivals
    decreases |ms|
  {
    hide OnInputAsync;
    if ms != [] {
      AsyncLogs(s, ms[0]);
      AllAsyncLogs(OnInputAsync(s, ms[0]), ms[1..]);
    }
  }

  lemma ResumeLogs(s: State, reset: bool)
    ensures Resume(s, reset).log.arrivals == s.log.arrivals
  {
    var t := s.(side := s.side.(ext := if reset then Init else Done, pending := []), refs := s.refs - 1);
    AllAsyncLogs(t, s.side.pending);
    if s.side.pending != [] {
      AsyncLogs(t, s.side.pending[0]);
    }
    hide AllAsync, OnInputAsync;
  }

  lemma TaskLogs(s: State, t: Task, engineLoop: bool, route: Route)
    ensures RunTask(s, t, engineLoop, route).log.arrivals == s.log.arrivals
  {
    RunTaskCases(s, t, engineLoop, route);
    hide RunTask, OnEngineLoop, AppHandles;
    if t.Input? {
      HandlingLogs(s.(refs := s.refs - 1, conn := s.conn.(mig := if s.conn.mig == Init then FirstMsg else s.conn.mig)), t.m, route);
    }
  }

  lemma HandlingLogs(s: State, m: Msg, route: Route)
    ensures AppHandles(s, m, route).log.arrivals == s.log.arrivals
  {
    hide OnEngineLoop;
  }

  /** A message that arrives is on record at once, and nothing else ever is. */
  lemma StepArrives(s: State, e: Step)
    requires Enabled(s, e)
    ensures Next(s, e).log.arrivals == s.log.arrivals + if e.Arrive? then [e.m] else []
  {
    hide RunTask, OnInputAsync, Resume;
    match e
    case Arrive(m) => AsyncLogs(s.(log := s.log.(arrivals := s.log.arrivals + [m])), m);
    case ImplTask => ResumeLogs(s.(side := s.side.(impl := s.side.impl[1..])), s.side.impl[0]);
    case AppTask(route) => TaskLogs(Popped(s, false), Head(s, false), false, route);
    case EngTask => TaskLogs(Popped(s, true), Head(s, true), true, Ignored);
    case _ =>
  }

  /** The close task is posted behind all that the loop of the app has for this
      connection when the app is first told, each of these tasks that runs brings it one
      nearer, and nothing else moves it. */
  ghost predicate CloseMoves(s: State, e: Step, r: State) {
    match s.close
    case Ran => r.close == Ran
    case Waiting(k) =>
      if e.CloseTask? then k == 0 && r.close == Ran
      else if e.AppTask? then k > 0 && r.close == Waiting(k - 1)
      else r.close == Waiting(k)
    case NotTold => r.close == (if TellsApp(s, e) then Waiting(|r.app|) else NotTold)
  }

  lemma TaskMovesClose(s: State, t: Task, engineLoop: bool, route: Route)
    ensures var r := RunTask(s, t, engineLoop, route);
            r.close == if t.Input? && route.CloseApp? && s.close.NotTold? && s.conn.attach == ToApp && !s.conn.closing
                          && s.conn.mig != FirstMsg && !engineLoop
                       then Waiting(|r.app|) else s.close
  {
    RunTaskCases(s, t, engineLoop, route);
    hide RunTask, AppHandles;
    if t.Input? {
      HandlingMovesClose(s.(refs := s.refs - 1, conn := s.conn.(mig := if s.conn.mig == Init then FirstMsg else s.conn.mig)), t.m, route);
    }
  }

  lemma HandlingMovesClose(s: State, m: Msg, route: Route)
    ensures var r := AppHandles(s, m, route);
            r.close == if route.CloseApp? && s.close.NotTold? then Waiting(|r.app|) else s.close
  {
    forall t: State, b {:trigger Notify(t, b)} ensures Notify(t, b).close == t.close {
      PostKeeps(t, OnEngineLoop(t), Cleaned(b));
    }
    forall t: State, n {:trigger Append(t, n)} ensures Append(t, n).close == t.close {
      PostKeeps(t.(inMsgs := t.inMsgs + [n]), t.conn.own, HandleMsgs);
    }
    hide Notify, Append;
  }

  lemma StepMovesClose(s: State, e: Step)
    requires Enabled(s, e)
    ensures CloseMoves(s, e, Next(s, e))
  {
    hide RunTask, OnInputAsync, Resume;
    match e
    case Arrive(m) => AsyncReaches(s.(log := s.log.(arrivals := s.log.arrivals + [m])), m);
    case ImplTask => ResumeReaches(s.(side := s.side.(impl := s.side.impl[1..])), s.side.impl[0]);
    case AppTask(route) => TaskMovesClose(Popped(s, false), Head(s, false), false, route);
    case EngTask => TaskMovesClose(Popped(s, true), Head(s, true), true, Ignored);
    case _ =>
  }

  // ----- Runs -----

  /** In every run what is on record as arrived is what the client has sent, in order. */
  lemma {:induction false} ArrivalsExactly(ss: seq<State>, es: seq<Step>, i: nat, close: Close)
    requires close.Waiting? ==> close.ahead == 0
    requires Run(ss, es) && i < |ss| && ss[0] == Accepted(close)
    ensures ss[i].log.arrivals == ArrivedIn(es, i)
  {
    hide Next, Enabled;
    if i > 0 {
      ArrivalsExactly(ss, es, i - 1, close);
      assert Enabled(ss[i - 1], es[i - 1]);
      StepArrives(ss[i - 1], es[i - 1]);
    }
  }

  /** In every run the close task is posted if and only if somebody has told the app. */
  lemma {:induction false} ToldExactly(ss: seq<State>, es: seq<Step>, i: nat)
    requires Run(ss, es) && i < |ss| && ss[0] == Accepted(NotTold)
    ensures !ss[i].close.NotTold? <==> WasTold(ss, es, i)
  {
    hide Next, Enabled, TellsApp;
    if i > 0 {
      ToldExactly(ss, es, i - 1);
      assert Enabled(ss[i - 1], es[i - 1]);
      StepMovesClose(ss[i - 1], es[i - 1]);
    }
  }

  /** The close task runs in its turn: after exactly those tasks of this connection that
      were in the loop of the app when it was posted, whatever is posted later. */
  lemma {:induction false} CloseTaskInTurn(ss: seq<State>, es: seq<Step>, j: nat, i: nat)
    requires Run(ss, es) && j < i < |ss| && ss[j].close.NotTold? && !ss[j + 1].close.NotTold?
    ensures TellsApp(ss[j], es[j]) && !ss[i].close.NotTold?
    ensures ss[i].close.Waiting? ==> ss[i].close.ahead + AppTasksRun(es, j + 1, i) == |ss[j + 1].app|
    ensures i < |es| && es[i].CloseTask? ==> AppTasksRun(es, j + 1, i) == |ss[j + 1].app|
    decreases i
  {
    hide Next, TellsApp, Runnable;
    assert Enabled(ss[i - 1], es[i - 1]) && (i < |es| ==> Enabled(ss[i], es[i]));
    if i == j + 1 {
      StepMovesClose(ss[j], es[j]);
    } else {
      CloseTaskInTurn(ss, es, j, i - 1);
      StepMovesClose(ss[i - 1], es[i - 1]);
    }
  }

  // ----- What is handed over and what is dropped -----

  /** In a state that meets the invariants a step hands over the message it takes out of
      a loop, and says rightly whether it is for an engine. */
  lemma StepHands(s: State, e: Step)
    requires Inv(s) && Enabled(s, e)
    ensures Next(s, e).log.handed == s.log.handed + HandedBy(s, e)
  {
    if s.conn.closing {
      DroppingKeepsInv(s, e);
    } else {
      hide RunTask, Books, OneOwner, Frozen, CloseReaches;
      match e
      case Arrive(m) =>
        hide Shape;
        AsyncConn(s.(log := s.log.(arrivals := s.log.arrivals + [m])), m);
      case ImplTask =>
        hide Shape;
        ResumeHands(s.(side := s.side.(impl := s.side.impl[1..])), s.side.impl[0]);
      case AppTask(route) => TaskHands(s, false, route);
      case EngTask => TaskHands(s, true, Ignored);
      case _ => hide Shape;
    }
  }

  lemma {:induction false} AllAsyncHands(s: State, ms: seq<Msg>)
    ensures AllAsync(s, ms).log.handed == s.log.handed
    decreases |ms|
  {
    hide OnEngineLoop;
    if ms != [] {
      AllAsyncHands(OnInputAsync(s, ms[0]), ms[1..]);
    }
  }

  lemma ResumeHands(s: State, reset: bool)
    ensures Resume(s, reset).log.handed == s.log.handed
  {
    var t := s.(side := s.side.(ext := if reset then Init else Done, pending := []), refs := s.refs - 1);
    AllAsyncHands(t, s.side.pending);
    hide AllAsync, OnEngineLoop;
  }

  lemma TaskHands(s: State, engineLoop: bool, route: Route)
    requires Inv(s) && Runnable(s, engineLoop) && !s.conn.closing
    ensures RunTask(Popped(s, engineLoop), Head(s, engineLoop), engineLoop, route).log.handed
         == s.log.handed + HandedBy(s, if engineLoop then EngTask else AppTask(route))
  {
    var p, t := Popped(s, engineLoop), Head(s, engineLoop);
    RunTaskCases(p, t, engineLoop, route);
    if t.Input? {
      InputShape(s, engineLoop);
      hide RunTask, Shape, Inv, AppHandles;
      if s.conn.attach == ToApp {
        HandlingHands(p.(refs := s.refs - 1, conn := s.conn.(mig := if s.conn.mig == Init then FirstMsg else s.conn.mig)), t.m, route);
      }
    } else {
      hide RunTask, Shape, Inv, OnEngineLoop;
    }
  }

  lemma HandlingHands(s: State, m: Msg, route: Route)
    ensures AppHandles(s, m, route).log.handed
         == s.log.handed + [Handed(m, !route.NoEngine? && !route.CloseApp? && !route.Ignored?)]
  {
    hide OnEngineLoop;
  }

  /** In every run of safe steps what is on record as handed over is what the loops took
      out for a connection that was not closing, in order. */
  lemma {:induction false} HandedExactly(ss: seq<State>, es: seq<Step>, i: nat)
    requires Run(ss, es) && i < |ss| && Inv(ss[0]) && ss[0].log.handed == []
    requires forall j {:trigger es[j]} :: 0 <= j < |es| ==> Safe(ss[j], es[j])
    ensures ss[i].log.handed == HandedIn(ss, es, i)
  {
    hide Inv, Safe, Next, Enabled, HandedBy;
    if i > 0 {
      HandedExactly(ss, es, i - 1);
      RunKeepsInv(ss, es, i - 1);
      assert Enabled(ss[i - 1], es[i - 1]);
      StepHands(ss[i - 1], es[i - 1]);
    }
  }

  /** A closing connection drops what arrives, what it held back and what it finds in the
      loop, each when it comes to it, and holds nothing back any more. */
  lemma DropsAtOnce(s: State, e: Step)
    requires Inv(s) && s.conn.closing && Enabled(s, e)
    ensures var r := Next(s, e);
            && r.log.dropped == s.log.dropped + DroppedBy(s, e)
            && r.side.pending == (if e.ImplTask? then [] else s.side.pending)
            && r.app == (if e.AppTask? then s.app[1..] else s.app) && r.eng == s.eng
  {
    ClosingDrops(s);
    hide Books, OneOwner, Shape, Frozen, CloseReaches;
    if e.ImplTask? {
      AllDropped(Thawed(s), s.side.pending);
    }
  }
}
