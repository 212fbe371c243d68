/**
 The functions that move a connection: they update the fields of the connection,
 of its protocol, of the app and of the engine in place.  Each is proved to do to
 the fields what the state machine of module Migration says; where the program
 asserts something, the assertion is proved.
 */
module Connections {
  import opened Migration
  import opened MigrationHistory
  import ClosingGraph

  class Connection {
    var migrationState: Mig
    var attachTo: Attach
    var onClosed: Handler
    var isCleaned: bool
    ghost var migrations: nat

    constructor ()
      ensures migrationState == Init && attachTo == ToApp && onClosed == Nobody && !isCleaned && migrations == 0
    {
      migrationState, attachTo, onClosed, isCleaned, migrations := Init, ToApp, Nobody, false, 0;
    }
  }

  /** `extraRefs` counts the references beyond the connection's own. */
  class Protocol {
    var migrationState: Mig
    var pendingTasks: seq<Msg>
    var implTasks: seq<bool>
    var isClosing: bool
    var extraRefs: int

    constructor ()
      ensures migrationState == Init && pendingTasks == [] && implTasks == [] && !isClosing && extraRefs == 0
    {
      migrationState, pendingTasks, implTasks, isClosing, extraRefs := Init, [], [], false, 0;
    }
  }

  /** What connections see of the app: its orphans, the tasks of its loop that are
      for connections, and the place among them of the task that closes the app. */
  class AppLoop {
    var orphans: seq<Connection>
    var tasks: seq<Task>
    var close: Close

    constructor ()
      ensures orphans == [] && tasks == [] && close == NotTold
    {
      orphans, tasks, close := [], [], NotTold;
    }

    /** `ten_app_close`: the first call posts the close task behind all others. */
    method Close()
      modifies this`close
      ensures close == if old(close).NotTold? then Waiting(|tasks|) else old(close)
    {
      if close.NotTold? {
        close := Waiting(|tasks|);
      }
    }

    method TakeFirst() returns (t: Task)
      requires tasks != []
      modifies this`tasks, this`close
      ensures old(tasks) == [t] + tasks && close == Nearer(old(close))
    {
      t := tasks[0];
      tasks := tasks[1..];
      if close.Waiting? && close.ahead > 0 {
        close := Waiting(close.ahead - 1);
      }
    }
  }

  class Engine {
    const hasOwnLoop: bool
    var tasks: seq<Task>
    var inMsgs: seq<Msg>

    constructor (hasOwnLoop: bool)
      ensures this.hasOwnLoop == hasOwnLoop && tasks == [] && inMsgs == []
    {
      this.hasOwnLoop, tasks, inMsgs := hasOwnLoop, [], [];
    }
  }

  /** A connection and everything it reaches: its protocol, the app, and the engine
      its messages are for. */
  class Link {
    const conn: Connection
    const protocol: Protocol
    const app: AppLoop
    const engine: Engine
    ghost var log: Log

    /** A client was accepted: the app keeps its connection with the orphans
        (`ten_connection_attach_to_app`). */
    constructor (app: AppLoop, engine: Engine)
      requires ClosingGraph.Distinct(app.orphans) && app.tasks == [] && (app.close.Waiting? ==> app.close.ahead == 0)
      requires engine.tasks == [] && engine.inMsgs == []
      modifies app
      ensures fresh(this) && fresh(conn) && fresh(protocol) && this.app == app && this.engine == engine
      ensures Proper() && (app.close != Ran ==> Inv(Now()))
      ensures app.orphans == old(app.orphans) + [conn]
      ensures app.close == old(app.close) && Now() == Accepted(app.close).(conn := Accepted(app.close).conn.(own := engine.hasOwnLoop))
    {
      conn := new Connection();
      protocol := new Protocol();
      this.app, this.engine := app, engine;
      log := Log([], [], [], [], false, false, false, false);
      new;
      conn.onClosed := Orphanage;
      app.orphans := app.orphans + [conn];
      assert Idle(Now());
    }

    ghost function Now(): State
      reads this, conn, protocol, app, engine
    {
      State(Side(protocol.migrationState, protocol.pendingTasks, protocol.implTasks),
            Conn(conn.migrationState, conn.attachTo, conn.onClosed, conn in app.orphans, conn.isCleaned, engine.hasOwnLoop,
                 protocol.isClosing, conn.migrations),
            app.tasks, app.close, engine.tasks, engine.inMsgs, protocol.extraRefs, log)
    }

    ghost predicate Proper()
      reads app
    {
      ClosingGraph.Distinct(app.orphans)
    }

    /** Of all the orphans that the app had `before`, only this connection may have left. */
    ghost predicate OrphansKept(before: seq<Connection>)
      reads app
    {
      app.orphans == if conn in before && conn !in app.orphans then ClosingGraph.RemovePtr(before, conn) else before
    }

    /** Adds a task at the end of the loop the connection belongs to
        (`ten_connection_get_attached_runloop`). */
    method PostToConnection(t: Task)
      requires Proper()
      modifies app`tasks, engine
      ensures Proper() && Now() == Post(old(Now()), OnEngineLoop(old(Now())), t)
    {
      if conn.attachTo != ToApp && engine.hasOwnLoop {
        engine.tasks := engine.tasks + [t];
      } else {
        app.tasks := app.tasks + [t];
      }
    }

    /** `ten_protocol_asynced_on_input_async`, in the protocol's thread: the message
        joins the end of those that wait, or is dropped by a closing protocol. */
    method OnInputAsync(m: Msg)
      requires Proper()
      modifies this, protocol, app`tasks, engine
      ensures Proper() && Now() == Migration.OnInputAsync(old(Now()), m)
      ensures Ordered(old(Now())) && !protocol.isClosing ==>
                Queued(Now()) == old(Queued(Now())) + [m] && Unheld(Now()) == old(Unheld(Now()))
      ensures protocol.isClosing ==> Now() == old(Now()).(log := old(log).(dropped := old(log.dropped) + [m]))
    {
      ghost var s := Now();
      if Ordered(s) && !s.conn.closing {
        OnInputAsyncBooks(s, m);
      }
      hide Ordered, Queued, Unheld;
      if protocol.isClosing {
        log := log.(dropped := log.dropped + [m]);
        return;
      }
      if protocol.migrationState == Init || protocol.migrationState == Done {
        protocol.extraRefs := protocol.extraRefs + 1;
        PostToConnection(Input(m));
      } else {
        protocol.pendingTasks := protocol.pendingTasks + [m];
      }
      if protocol.migrationState == Init {
        protocol.migrationState := FirstMsg;
      }
    }

    /** A message of the client arrives. */
    method Receive(m: Msg)
      requires Proper()
      modifies this, protocol, app`tasks, engine
      ensures Proper() && Now() == Next(old(Now()), Arrive(m)) && log.arrivals == old(log.arrivals) + [m]
      ensures old(Inv(Now())) ==> Inv(Now())
    {
      if Inv(Now()) {
        ArriveKeepsInv(Now(), m);
      }
      StepArrives(Now(), Arrive(m));
      hide Inv;
      log := log.(arrivals := log.arrivals + [m]);
      OnInputAsync(m);
    }

    /** `ten_connection_on_migration_is_done_or_reset`: the notice holds a reference
        of its own until it has reached the protocol's thread. */
    method OnMigrationIsDoneOrReset(reset: bool)
      requires Proper()
      modifies protocol, app`tasks, engine
      ensures Proper() && Now() == Notify(old(Now()), reset) && Keeps(old(Now()), Now(), [])
    {
      NotifyKeeps(Now(), reset);
      hide Keeps;
      protocol.extraRefs := protocol.extraRefs + 1;
      PostToConnection(Cleaned(reset));
    }

    /** `ten_connection_upgrade_migration_state_to_done`; an engine becomes the owner. */
    method UpgradeToDone(withEngine: bool)
      requires Proper() && (withEngine ==> conn.attachTo == ToApp && conn !in app.orphans)
      modifies conn, protocol, app`tasks, engine
      ensures Proper() && Keeps(old(Now()), Now(), []) && conn.migrationState == Done
      ensures withEngine ==> Now() == Upgrade(old(Now()))
      ensures !withEngine ==> Now() == Notify(old(Now()).(conn := old(Now()).conn.(mig := Done)), false)
    {
      ghost var s := Now();
      NotifyKeeps(s.(conn := s.conn.(mig := Done)), false);
      SameQueues(s, s.(conn := s.conn.(mig := Done)));
      if withEngine {
        UpgradeKeeps(s);
        hide Keeps;
        conn.attachTo := ToEngine;
        conn.onClosed := TheEngine;
        conn.migrations := conn.migrations + 1;
      }
      hide Keeps;
      conn.migrationState := Done;
      OnMigrationIsDoneOrReset(false);
    }

    /** `ten_connection_migration_state_reset_when_engine_not_found` */
    method ResetWhenEngineNotFound()
      requires Proper() && conn.attachTo == ToApp
      modifies conn, protocol, app`tasks, engine
      ensures Proper() && Keeps(old(Now()), Now(), [])
      ensures Now() == Notify(old(Now()).(conn := old(Now()).conn.(mig := Init)), true)
    {
      ghost var s := Now();
      NotifyKeeps(s.(conn := s.conn.(mig := Init)), true);
      SameQueues(s, s.(conn := s.conn.(mig := Init)));
      hide Keeps;
      assert conn.attachTo == ToApp;
      conn.migrationState := Init;
      OnMigrationIsDoneOrReset(true);
    }

    /** `ten_app_del_orphan_connection`: the connection must be an orphan. */
    method DelOrphanConnection()
      requires Proper() && conn in app.orphans
      modifies conn, app`orphans
      ensures Proper() && Now() == DelOrphan(old(Now()))
      ensures app.orphans == ClosingGraph.RemovePtr(old(app.orphans), conn)
    {
      ClosingGraph.RemovePtrElements(app.orphans, conn);
      app.orphans := ClosingGraph.RemovePtr(app.orphans, conn);
      conn.onClosed := Nobody;
    }

    /** `ten_engine_append_to_in_msgs_queue` */
    method AppendToInMsgs(m: Msg)
      requires Proper()
      modifies app`tasks, engine
      ensures Proper() && Now() == Append(old(Now()), m)
    {
      engine.inMsgs := engine.inMsgs + [m];
      if engine.hasOwnLoop {
        engine.tasks := engine.tasks + [HandleMsgs];
      } else {
        app.tasks := app.tasks + [HandleMsgs];
      }
    }

    /** `ten_connection_needs_to_migrate`; without a loop of its own to move to, the
        engine takes the connection over at once. */
    method NeedsToMigrate() returns (needs: bool)
      requires Proper() && (conn.migrationState == FirstMsg ==> conn.attachTo == ToApp && conn in app.orphans)
      modifies conn, protocol, app, engine
      ensures Proper() && needs == (engine.hasOwnLoop && old(conn.migrationState) == FirstMsg)
      ensures Now() == if !engine.hasOwnLoop && old(conn.migrationState) == FirstMsg then Upgrade(DelOrphan(old(Now()))) else old(Now())
      ensures Keeps(old(Now()), Now(), []) && (needs || conn.migrationState != FirstMsg)
      ensures OrphansKept(old(app.orphans))
    {
      ghost var s := Now();
      assert s.inMsgs + [] == s.inMsgs;
      if engine.hasOwnLoop {
        return conn.migrationState == FirstMsg;
      }
      if conn.migrationState == FirstMsg {
        assert conn.attachTo == ToApp;
        OrphanLeaves(s);
        hide Keeps;
        DelOrphanConnection();
        UpgradeToDone(true);
      }
      return false;
    }

    /** `ten_protocol_asynced_migrate`: the app cleans the connection and hands it, with
        its message, to the engine's thread. */
    method Migrate(m: Msg)
      requires Proper() && conn.attachTo == ToApp && conn in app.orphans
      modifies conn, app`orphans, engine`tasks
      ensures Proper() && Keeps(old(Now()), Now(), [m])
      ensures var d := DelOrphan(old(Now()));
              Now() == d.(conn := d.conn.(cleaned := true), eng := old(engine.tasks) + [ConnCleaned(m)])
      ensures app.orphans == ClosingGraph.RemovePtr(old(app.orphans), conn)
    {
      OrphanPosted(Now(), m);
      hide Keeps;
      assert conn.attachTo == ToApp;
      DelOrphanConnection();
      conn.isCleaned := true;
      engine.tasks := engine.tasks + [ConnCleaned(m)];
    }

    /** `ten_app_do_connection_migration_or_push_to_engine_queue`: either way the
        message is now the engine's. */
    method DoMigrationOrPush(m: Msg)
      requires Proper() && conn.attachTo == ToApp && (conn.migrationState == FirstMsg ==> conn in app.orphans)
      modifies conn, protocol, app, engine
      ensures Proper() && Now() == MigrateOrPush(old(Now()), m) && Keeps(old(Now()), Now(), [m])
      ensures OrphansKept(old(app.orphans))
    {
      MigrateOrPushKeeps(Now(), m);
      hide Keeps;
      var needs := NeedsToMigrate();
      if needs {
        Migrate(m);
      } else {
        AppendToInMsgs(m);
      }
    }

    /** `ten_app_handle_close_app_cmd`: the notice is posted first, so that the close
        task, if it is posted now, runs behind it. */
    method HandleCloseApp()
      requires Proper() && conn.attachTo == ToApp
      modifies conn, protocol, app`tasks, app`close, engine
      ensures Proper() && Keeps(old(Now()), Now(), []) && !app.close.NotTold?
      ensures app.tasks == old(app.tasks) + [Cleaned(false)] && (app.close == old(app.close) || app.close == Waiting(|app.tasks|))
      ensures Now() == TellApp(Notify(old(Now()).(conn := old(Now()).conn.(mig := Done)), false))
    {
      UpgradeToDone(false);
      ghost var t := Now();
      app.Close();
      SameQueues(t, Now());
      hide Queued, Unheld, Moving;
    }

    /** `ten_app_handle_in_msg`: what happens to a message of a connection that
        belongs to the app; `route` is what the app finds out about the message.
        Whatever it is, the message is counted once, and given to an engine exactly
        if it is for one. */
    method HandleInMsg(m: Msg, route: Route)
      requires Proper() && conn.attachTo == ToApp && conn.migrationState != Init
      requires conn.migrationState == FirstMsg ==> conn in app.orphans
      requires (route.OwnLoop? ==> engine.hasOwnLoop) && (route.SharedLoop? ==> !engine.hasOwnLoop)
      modifies this, conn, protocol, app, engine
      ensures Proper() && Now() == AppHandles(old(Now()), m, route)
      ensures Keeps(old(Now()), Now(), if ForAnEngine(route) then [m] else [])
      ensures Msgs(log.handed) == old(Msgs(log.handed)) + [m]
      ensures OrphansKept(old(app.orphans))
    {
      assert conn.migrationState == FirstMsg || conn.migrationState == Done;
      AppHandlesKeeps(Now(), m, route);
      AppHandlesCases(Now(), m, route);
      hide Keeps, Msgs, ForEngine, AppHandles, MigrateOrPush, Notify, Append, TellApp;
      log := log.(handed := log.handed + [Handed(m, ForAnEngine(route))]);
      match route {
        case OwnLoop => DoMigrationOrPush(m);
        case SharedLoop => DoMigrationOrPush(m);
        case NoEngine => ResetWhenEngineNotFound();
        case CloseApp => HandleCloseApp();
        case StopGraph => AppendToInMsgs(m);
        case Ignored => log := log.(ignoredFirst := log.ignoredFirst || conn.migrationState == FirstMsg);
      }
    }

    /** `ten_protocol_asynced_on_input` and `ten_protocol_on_input`: a message reaches
        the connection in the app's loop or in the engine's, and is handed over once,
        or dropped if the protocol is closing. */
    method OnInput(m: Msg, engineLoop: bool, route: Route)
      requires Proper()
      requires !protocol.isClosing ==>
                 && conn.migrationState != FirstMsg && conn.attachTo != ToEngine
                 && engineLoop == OnEngineLoop(Now()) && (conn.attachTo == ToApp ==> conn in app.orphans)
      requires (route.OwnLoop? ==> engine.hasOwnLoop) && (route.SharedLoop? ==> !engine.hasOwnLoop)
      modifies this, conn, protocol, app, engine
      ensures Proper() && Now() == Migration.OnInput(old(Now()), m, engineLoop, route)
      ensures Settled(old(Now()), Now(), m)
      ensures OrphansKept(old(app.orphans))
    {
      OnInputSettles(Now(), m, engineLoop, route);
      hide Settled;
      if protocol.isClosing {
        log := log.(dropped := log.dropped + [m]);
        return;
      }
      assert conn.migrationState == Init || conn.migrationState == Done;
      if conn.migrationState == Init {
        conn.migrationState := FirstMsg;
      }
      match conn.attachTo {
        case ToApp => HandleInMsg(m, route);
        case ToRemote => log := log.(handed := log.handed + [Handed(m, true)], delivered := log.delivered + [m]);
        case ToEngine => assert false;
      }
    }

    /** `ten_engine_on_connection_cleaned`: the event it waits for must have been set.
        The message is in the engine's queue before the notice is posted that lets
        later messages follow. */
    method OnConnectionCleaned(m: Msg)
      requires Proper() && conn.isCleaned && conn.attachTo == ToApp && conn !in app.orphans
      modifies conn, protocol, app`tasks, engine
      ensures Proper() && Now() == Migration.OnConnectionCleaned(old(Now()), m)
      ensures Keeps(old(Now()), Now(), [m]) && engine.inMsgs == old(engine.inMsgs) + [m]
      ensures if engine.hasOwnLoop then engine.tasks == old(engine.tasks) + [HandleMsgs, Cleaned(false)]
              else app.tasks == old(app.tasks) + [HandleMsgs, Cleaned(false)]
    {
      assert conn.isCleaned;
      ghost var s := Now();
      CleanedKeeps(s, m);
      hide Keeps;
      AppendToInMsgs(m);
      UpgradeToDone(true);
    }

    /** `ten_engine_handle_in_msgs_sync` */
    method HandleInMsgs()
      requires Proper() && (engine.inMsgs != [] ==> conn.migrationState == Done)
      modifies this, conn, engine
      ensures Proper() && Now() == Migration.HandleInMsgs(old(Now()))
      ensures engine.inMsgs == [] && log.delivered == old(log.delivered) + old(engine.inMsgs)
      ensures old(engine.inMsgs) != [] ==> conn.attachTo == ToRemote
    {
      var msgs := engine.inMsgs;
      engine.inMsgs := [];
      for i := 0 to |msgs|
        invariant Proper() && log == old(log).(delivered := old(log.delivered) + msgs[..i])
        invariant Now() == old(Now()).(inMsgs := [], log := log, conn :=
                     if i == 0 || old(conn.attachTo) == ToRemote then old(Now()).conn
                     else old(Now()).conn.(attach := ToRemote, handler := TheRemote))
      {
        Dispatch(msgs[i]);
      }
    }

    /** One round of the loop above: the connection gets its remote, if it has none yet. */
    method Dispatch(m: Msg)
      requires Proper() && conn.migrationState == Done
      modifies this, conn
      ensures Proper()
      ensures var s := old(Now());
              Now() == s.(log := s.log.(delivered := s.log.delivered + [m]), conn :=
                if s.conn.attach == ToRemote then s.conn else s.conn.(attach := ToRemote, handler := TheRemote))
    {
      assert conn.migrationState == Done;
      if conn.attachTo != ToRemote {
        conn.attachTo := ToRemote;
        conn.onClosed := TheRemote;
      }
      log := log.(delivered := log.delivered + [m]);
    }

    /** `ten_protocol_on_cleaned_task` */
    method OnCleaned(reset: bool)
      requires Proper()
      modifies protocol
      ensures Proper() && Now() == old(Now()).(side := old(Now()).side.(impl := old(protocol.implTasks) + [reset]))
    {
      protocol.extraRefs := protocol.extraRefs + 1;
      protocol.implTasks := protocol.implTasks + [reset];
      protocol.extraRefs := protocol.extraRefs - 1;
    }

    /** `ten_protocol_asynced_on_base_protocol_cleaned_task`; the loop reads the next
        node before it handles the current one. */
    method OnBaseProtocolCleaned(reset: bool)
      requires Proper() && (reset && !protocol.isClosing ==> |protocol.pendingTasks| <= 2)
      modifies this, protocol, app`tasks, engine
      ensures Proper() && Now() == Resume(old(Now()), reset)
      ensures log.lost == (old(log.lost) || (reset && !protocol.isClosing && old(|protocol.pendingTasks|) == 2))
    {
      if reset {
        protocol.migrationState := Init;
      } else {
        protocol.migrationState := Done;
      }
      ghost var start, held := Now(), protocol.pendingTasks;
      DrainingStarts(start, held);
      hide Draining, Fed, AllAsync, Migration.OnInputAsync, Resume;
      var i, more, next := 0, protocol.pendingTasks != [], |protocol.pendingTasks| > 1;
      while more
        invariant Proper() && Draining(start, held, i, more, next, Now())
        decreases |held| - i
      {
        DrainingEnds(start, held, i, more, next, Now());
        more, next := ReleaseOne(i, next, start, held);
        i := i + 1;
      }
      DrainingEnds(start, held, i, more, next, Now());
      FedResumes(old(Now()), start, reset);
      protocol.pendingTasks := [];
      protocol.extraRefs := protocol.extraRefs - 1;
      log := log.(lost := log.lost || (reset && !protocol.isClosing && |held| == 2));
    }

    /** One round of that loop, which found out before whether a `next` node follows. */
    method ReleaseOne(i: nat, next: bool, ghost start: State, ghost held: seq<Msg>) returns (more: bool, nextNext: bool)
      requires Proper() && Draining(start, held, i, true, next, Now())
      modifies this, protocol, app`tasks, engine
      ensures Proper() && Draining(start, held, i + 1, more, nextNext, Now())
    {
      ReleasesOne(start, held, i, next, Now());
      hide Draining, Migration.OnInputAsync;
      var m := protocol.pendingTasks[i];
      OnInputAsync(m);
      more, nextNext := next, next && i + 2 < |protocol.pendingTasks|;
    }

    /** The app's loop runs its first task. */
    method RunAppTask(route: Route)
      requires Proper() && Inv(Now()) && Runnable(Now(), false) && Safe(Now(), AppTask(route))
      requires (route.OwnLoop? ==> engine.hasOwnLoop) && (route.SharedLoop? ==> !engine.hasOwnLoop)
      modifies this, conn, protocol, app, engine
      ensures Proper() && Now() == Next(old(Now()), AppTask(route)) && Inv(Now())
      ensures OrphansKept(old(app.orphans))
    {
      ghost var s := Now();
      StepKeepsInv(s, AppTask(route));
      TaskRuns(s, false);
      hide Inv, Safe;
      var t := app.TakeFirst();
      RunTask(t, false, route);
    }

    /** Somebody tells the app to close, from whatever thread: the first time, the close
        task is posted behind all that the loop of the app has for this connection. */
    method CloseApp()
      requires Proper()
      modifies app`close
      ensures Proper() && Now() == Next(old(Now()), AppTold)
      ensures app.close == if old(app.close).NotTold? then Waiting(|app.tasks|) else old(app.close)
      ensures old(Inv(Now())) ==> Inv(Now())
    {
      if Inv(Now()) {
        AppToldKeepsInv(Now());
      }
      hide Inv;
      app.Close();
    }

    /** The app's loop runs `ten_app_close_task`: a connection that is still among the
        orphans is told to close. */
    method RunCloseTask()
      requires Proper() && Inv(Now()) && app.close == Waiting(0)
      modifies protocol`isClosing, app`close
      ensures Proper() && Now() == Next(old(Now()), Step.CloseTask) && Inv(Now())
      ensures protocol.isClosing <==> conn in app.orphans
    {
      CloseTaskKeepsInv(Now());
      app.close := Ran;
      if conn in app.orphans {
        protocol.isClosing := true;
      }
    }

    /** The loop of an engine runs its first task. */
    method RunEngineTask()
      requires Proper() && Inv(Now()) && engine.tasks != []
      modifies this, conn, protocol, app, engine
      ensures Proper() && Now() == Next(old(Now()), EngTask) && Inv(Now())
      ensures OrphansKept(old(app.orphans))
    {
      ghost var s := Now();
      StepKeepsInv(s, EngTask);
      TaskRuns(s, true);
      hide Inv, Safe;
      var t := engine.tasks[0];
      engine.tasks := engine.tasks[1..];
      RunTask(t, true, Ignored);
    }

    method RunTask(t: Task, engineLoop: bool, route: Route)
      requires Proper()
      requires t.Input? && !protocol.isClosing ==>
                 && conn.migrationState != FirstMsg && conn.attachTo != ToEngine && engineLoop == OnEngineLoop(Now())
                 && (conn.attachTo == ToApp ==> conn in app.orphans)
      requires t.ConnCleaned? ==> conn.isCleaned && conn.attachTo == ToApp && conn !in app.orphans
      requires t.HandleMsgs? && engine.inMsgs != [] ==> conn.migrationState == Done
      requires (route.OwnLoop? ==> engine.hasOwnLoop) && (route.SharedLoop? ==> !engine.hasOwnLoop)
      modifies this, conn, protocol, app, engine
      ensures Proper() && Now() == Migration.RunTask(old(Now()), t, engineLoop, route)
      ensures OrphansKept(old(app.orphans))
    {
      RunTaskCases(Now(), t, engineLoop, route);
      hide Migration.RunTask, Migration.OnInput, Migration.OnConnectionCleaned, Migration.HandleInMsgs, Settled, Keeps;
      match t {
        case Input(m) =>
          protocol.extraRefs := protocol.extraRefs - 1;
          OnInput(m, engineLoop, route);
        case Cleaned(reset) => OnCleaned(reset);
        case ConnCleaned(m) => OnConnectionCleaned(m);
        case HandleMsgs => HandleInMsgs();
      }
    }

    /** The protocol's thread runs its first notice. */
    method RunImplTask()
      requires Proper() && Inv(Now()) && protocol.implTasks != [] && Safe(Now(), ImplTask)
      modifies this, protocol, app`tasks, engine
      ensures Proper() && Now() == Next(old(Now()), ImplTask) && Inv(Now())
    {
      StepKeepsInv(Now(), ImplTask);
      hide Inv;
      var reset := protocol.implTasks[0];
      protocol.implTasks := protocol.implTasks[1..];
      OnBaseProtocolCleaned(reset);
    }
  }

  /** A message that was taken out of a loop has been handed over or dropped, once;
      those that wait, the references and the single owner are as they were. */
  ghost predicate Settled(s: State, r: State, m: Msg) {
    && (if s.conn.closing then r.log.handed == s.log.handed && r.log.dropped == s.log.dropped + [m]
        else Msgs(r.log.handed) == Msgs(s.log.handed) + [m] && r.log.dropped == s.log.dropped)
    && Queued(r) == Queued(s) && Unheld(r) == Unheld(s) && (OneOwner(s) ==> OneOwner(r))
  }

  lemma OnInputSettles(s: State, m: Msg, engineLoop: bool, route: Route)
    requires !s.conn.closing ==>
               && s.conn.mig != FirstMsg && s.conn.attach != ToEngine && engineLoop == OnEngineLoop(s)
               && (s.conn.attach == ToApp ==> s.conn.orphan)
    ensures Settled(s, Migration.OnInput(s, m, engineLoop, route), m)
  {
    var r := Migration.OnInput(s, m, engineLoop, route);
    if s.conn.closing {
      SameQueues(s, r);
    } else {
      var f := s.(conn := s.conn.(mig := if s.conn.mig == Init then FirstMsg else s.conn.mig));
      SameQueues(s, f);
      HandedAppend(s.log.handed, Handed(m, true));
      hide Queued, Unheld, Moving, Msgs, AppHandles;
      if s.conn.attach == ToApp {
        AppHandlesKeeps(f, m, route);
        AppHandlesDropNone(f, m, route);
      } else {
        SameQueues(f, r);
      }
    }
  }

  /** The state once the loop over the messages held back is over. */
  ghost function Finished(s: State): State {
    s.(side := s.side.(pending := []), refs := s.refs - 1)
  }

  lemma FinishedAside(s: State, m: Msg)
    requires s.side.ext != FirstMsg || s.conn.closing
    ensures Migration.OnInputAsync(Finished(s), m) == Finished(Migration.OnInputAsync(s, m))
  {
    if OnEngineLoop(s) {
    } else {
    }
  }

  /** The messages handled one by one while the list feeds itself. */
  ghost function Fed(s: State, ms: seq<Msg>): State {
    if ms == [] then s else Migration.OnInputAsync(Fed(s, ms[..|ms| - 1]), ms[|ms| - 1])
  }

  /** The loop stands at number `i` of the messages `held`, and `next` tells whether
      another one follows. */
  ghost predicate Draining(start: State, held: seq<Msg>, i: nat, more: bool, next: bool, s: State) {
    && i <= |held| && (if more then i < |held| && next == (i + 1 < |held|) && s.side.pending == held else i == |held|)
    && s == Fed(start, held[..i]) && s.conn.closing == start.conn.closing && s.log.lost == start.log.lost
    && (i == 0 ==> s.side.ext != FirstMsg)
    && (s.side.ext == Done || s.conn.closing || |held| <= 2)
  }

  lemma DrainingStarts(start: State, held: seq<Msg>)
    requires start.side.pending == held && start.side.ext != FirstMsg
    requires start.side.ext == Done || start.conn.closing || |held| <= 2
    ensures Draining(start, held, 0, held != [], |held| > 1, start)
  {
    assert held[..0] == [];
  }

  lemma DrainingEnds(start: State, held: seq<Msg>, i: nat, more: bool, next: bool, s: State)
    requires Draining(start, held, i, more, next, s)
    ensures if more then i < |held| else s == Fed(start, held)
  {
    assert !more ==> held[..i] == held;
  }

  lemma ReleasesOne(start: State, held: seq<Msg>, i: nat, next: bool, s: State)
    requires Draining(start, held, i, true, next, s)
    ensures i < |s.side.pending|
    ensures var r := Migration.OnInputAsync(s, s.side.pending[i]);
            Draining(start, held, i + 1, next, next && i + 2 < |r.side.pending|, r)
  {
    assert held[..i + 1][..i] == held[..i];
    AsyncKeeps(s, held[i]);
    hide Migration.OnInputAsync;
  }

  /** After a reset only the first of two messages is posted. */
  lemma FedOnce(s: State, held: seq<Msg>)
    requires s.side.ext == Init && !s.conn.closing && s.side.pending == held && |held| <= 2
    ensures Finished(Fed(s, held)) == if held == [] then Finished(s) else Migration.OnInputAsync(Finished(s), held[0])
  {
    if held != [] {
      FinishedAside(s, held[0]);
      assert held[..1] == [held[0]] && held[..1][..0] == [];
      assert Fed(s, held[..1]) == Migration.OnInputAsync(s, held[0]);
      if |held| == 1 {
        assert held[..1] == held;
      }
    }
  }

  /** Otherwise all of them are. */
  lemma {:induction false} FedAll(s: State, ms: seq<Msg>)
    requires s.side.ext == Done || s.conn.closing
    ensures Finished(Fed(s, ms)) == AllAsync(Finished(s), ms)
    ensures Fed(s, ms).side.ext == Done || Fed(s, ms).conn.closing
  {
    hide Migration.OnInputAsync, Finished;
    if ms == [] {
      NoneAsync(Finished(s), ms);
    } else {
      var n := |ms| - 1;
      FedAll(s, ms[..n]);
      var b := Fed(s, ms[..n]);
      AsyncKeeps(b, ms[n]);
      FinishedAside(b, ms[n]);
      AllAsyncLast(Finished(s), ms[..n], ms[n]);
      assert ms == ms[..n] + [ms[n]];
    }
  }

  lemma {:induction false} AllAsyncLast(s: State, ms: seq<Msg>, m: Msg)
    ensures AllAsync(s, ms + [m]) == Migration.OnInputAsync(AllAsync(s, ms), m)
    decreases |ms|
  {
    hide Migration.OnInputAsync;
    if ms == [] {
      assert ms + [m] == [m] && [m][1..] == [];
    } else {
      AllAsyncLast(Migration.OnInputAsync(s, ms[0]), ms[1..], m);
      assert (ms + [m])[0] == ms[0] && (ms + [m])[1..] == ms[1..] + [m];
    }
  }

  /** The loop over the messages held back comes to what the state machine says. */
  lemma FedResumes(s: State, start: State, reset: bool)
    requires start == s.(side := s.side.(ext := if reset then Init else Done))
    requires reset && !s.conn.closing ==> |s.side.pending| <= 2
    ensures var f := Finished(Fed(start, s.side.pending));
            Resume(s, reset) == f.(log := f.log.(lost := f.log.lost || (reset && !s.conn.closing && |s.side.pending| == 2)))
  {
    hide AllAsync, Fed;
    var held := s.side.pending;
    if !reset || s.conn.closing {
      FedAll(start, held);
    } else {
      FedOnce(start, held);
      hide OnEngineLoop;
      if held != [] {
        AsyncKeeps(Finished(start), held[0]);
      }
    }
  }

  lemma KeepsBoth(s: State, t: State, r: State, m: Msg)
    requires Keeps(s, t, [m]) && Keeps(t, r, []) && Moving(t.eng) == Moving(s.eng)
    ensures Keeps(s, r, [m])
  {
    hide Queued, Unheld, Moving, OneOwner;
  }

  lemma CleanedKeeps(s: State, m: Msg)
    requires s.conn.attach == ToApp && !s.conn.orphan
    ensures Keeps(s, Upgrade(Append(s, m)), [m])
  {
    AppendKeeps(s, m);
    UpgradeKeeps(Append(s, m));
    PostBooks(s.(inMsgs := s.inMsgs + [m]), s.conn.own, HandleMsgs);
    hide Keeps, Upgrade, Moving;
    KeepsBoth(s, Append(s, m), Upgrade(Append(s, m)), m);
  }

  lemma OrphanLeaves(s: State)
    requires s.conn.attach == ToApp && s.conn.orphan
    ensures Keeps(s, DelOrphan(s), []) && Keeps(s, Upgrade(DelOrphan(s)), [])
  {
    var d := DelOrphan(s);
    UpgradeKeeps(d);
    SameQueues(s, d);
    assert s.inMsgs + [] == s.inMsgs;
    hide Queued, Unheld, Moving, Upgrade;
    KeepsTrans(s, d, Upgrade(d), []);
  }

  lemma OrphanPosted(s: State, m: Msg)
    requires s.conn.attach == ToApp && s.conn.orphan
    ensures var d := DelOrphan(s);
            Keeps(s, d.(conn := d.conn.(cleaned := true), eng := s.eng + [ConnCleaned(m)]), [m])
  {
    var d := DelOrphan(s);
    var c := d.(conn := d.conn.(cleaned := true));
    SameQueues(s, c);
    PostBooks(c, true, ConnCleaned(m));
    hide Queued, Unheld, Moving;
  }

  lemma AppHandlesCases(s: State, m: Msg, route: Route)
    requires (route.OwnLoop? ==> s.conn.own) && (route.SharedLoop? ==> !s.conn.own)
    ensures var h := s.(log := s.log.(handed := s.log.handed + [Handed(m, ForAnEngine(route))]));
            AppHandles(s, m, route) ==
            match route
            case OwnLoop => MigrateOrPush(h, m)
            case SharedLoop => MigrateOrPush(h, m)
            case NoEngine => Notify(h.(conn := h.conn.(mig := Init)), true)
            case CloseApp => TellApp(Notify(h.(conn := h.conn.(mig := Done)), false))
            case StopGraph => Append(h, m)
            case Ignored => h.(log := h.log.(ignoredFirst := s.log.ignoredFirst || s.conn.mig == FirstMsg))
  {
    hide MigrateOrPush, Notify, Append, TellApp;
    assert route.OwnLoop? ==> s.conn.(own := true) == s.conn;
    assert route.SharedLoop? ==> s.conn.(own := false) == s.conn;
  }

  lemma AppHandlesDropNone(s: State, m: Msg, route: Route)
    ensures AppHandles(s, m, route).log.dropped == s.log.dropped
  {
    hide OnEngineLoop;
  }

  /** In a state that meets the invariants the first task of a loop meets no assertion that fails. */
  lemma TaskRuns(s: State, engineLoop: bool)
    requires Inv(s) && Runnable(s, engineLoop)
    ensures var t := Head(s, engineLoop);
            && (t.Input? && !s.conn.closing ==>
                  && s.conn.mig != FirstMsg && s.conn.attach != ToEngine && engineLoop == OnEngineLoop(s)
                  && (s.conn.attach == ToApp ==> s.conn.orphan))
            && (t.ConnCleaned? ==> s.conn.cleaned && s.conn.attach == ToApp && !s.conn.orphan)
            && (s.inMsgs != [] ==> s.conn.mig == Done)
  {
    if Head(s, engineLoop).Input? && !s.conn.closing {
      InputShape(s, engineLoop);
    }
    TaskLoops(s, engineLoop);
    HandleableShape(s);
    if Head(s, engineLoop).ConnCleaned? {
      ConnCleanedShape(s);
    }
  }
}
