/**
 The app object and the functions that close it, proved to do to its fields what
 the state machine of module AppClosing says.
 */
module Apps {
  import opened AppClosing
  import ClosingGraph

  /** Engines and connections are named by numbers. */
  class App {
    var closing: bool
    var tasks: seq<Task>
    var engines: seq<nat>
    var orphans: seq<nat>
    var endpoint: Part
    var store: Part
    const longRunning: bool

    ghost var deinits: nat
    ghost var closeTasks: nat
    ghost var closeRan: bool
    ghost var told: set<nat>
    ghost var stopping: set<nat>
    ghost var ended: set<nat>
    ghost var used: set<nat>
    ghost var late: set<nat>

    ghost function Now(): State
      reads this
    {
      State(closing, tasks, engines, orphans, endpoint, store, longRunning, deinits, closeTasks, closeRan, told, stopping, ended, used,
            late)
    }

    constructor (hasEndpoint: bool, longRunning: bool)
      ensures Now() == Configured(hasEndpoint, longRunning) && Inv(Now())
      ensures (endpoint == Open <==> hasEndpoint) && (endpoint == Absent <==> !hasEndpoint) && store == Open
      ensures engines == [] && orphans == [] && tasks == [] && !closing && deinits == 0 && this.longRunning == longRunning
    {
      closing, tasks, engines, orphans := false, [], [], [];
      endpoint, store := if hasEndpoint then Open else Absent, Open;
      this.longRunning := longRunning;
      deinits, closeTasks, closeRan, told, stopping, ended, used, late := 0, 0, false, {}, {}, {}, {}, {};
      new;
      ConfiguredInv(hasEndpoint, longRunning);
    }

    /** `ten_app_has_no_work` */
    method HasNoWork() returns (r: bool)
      ensures r == (engines == [] && orphans == [])
    {
      if engines == [] && orphans == [] {
        return true;
      }
      return false;
    }

    /** `ten_app_could_be_close`: an app without an endpoint counts it as closed. In a
        state between two steps the answer tells whether `on_deinit` was started. */
    method CouldBeClose() returns (r: bool)
      ensures r == CouldBeClosed(Now())
      ensures Inv(Now()) ==> deinits <= 1 && (r <==> deinits == 1)
    {
      var noWork := HasNoWork();
      return noWork && endpoint != Open && store != Open;
    }

    /** `ten_app_proceed_to_close` */
    method ProceedToClose()
      modifies this`deinits
      ensures Now() == Proceed(old(Now()))
    {
      var could := CouldBeClose();
      if !could {
        return;
      }
      deinits := deinits + 1;
    }

    /** `ten_app_close`, under the lock. */
    method Close()
      modifies this
      ensures Now() == AppClosing.Close(old(Now()))
      ensures closing && tasks == old(tasks) + (if old(closing) then [] else [CloseTask])
      ensures engines == old(engines) && orphans == old(orphans) && deinits == old(deinits)
      ensures old(Inv(Now())) ==> Inv(Now()) && closeTasks == 1
    {
      if Inv(Now()) {
        CloseKeepsInv(Now());
      }
      if closing {
        return;
      }
      closing := true;
      tasks := tasks + [CloseTask];
      closeTasks := closeTasks + 1;
    }

    /** `ten_app_check_termination_when_engine_closed` */
    method CheckTerminationWhenEngineClosed(e: nat)
      modifies this
      ensures Now() == EngineReclaimed(old(Now()), e)
      ensures old(ClosingGraph.Distinct(engines) && e in engines) ==> forall n :: n in engines <==> n in old(engines) && n != e
      ensures closing <==> old(closing) || !longRunning
      ensures tasks == old(tasks) + (if closing && !old(closing) then [CloseTask] else [])
      ensures orphans == old(orphans) && endpoint == old(endpoint) && store == old(store)
      ensures deinits == old(deinits) + (if closing && CouldBeClosed(Now()) then 1 else 0)
    {
      if ClosingGraph.Distinct(engines) && e in engines {
        ClosingGraph.RemovePtrElements(engines, e);
      }
      engines := ClosingGraph.RemovePtr(engines, e);
      if !longRunning {
        Close();
      }
      if closing {
        ProceedToClose();
      }
    }

    /** `ten_app_on_engine_closed`: the loop of the engine only posts a task. */
    method OnEngineClosed(e: nat, ownLoop: bool)
      requires Inv(Now()) && Enabled(Now(), EngineClosed(e, ownLoop))
      modifies this
      ensures Now() == Next(old(Now()), EngineClosed(e, ownLoop)) && Inv(Now())
      ensures ownLoop ==>
                && engines == old(engines) && orphans == old(orphans) && closing == old(closing) && deinits == old(deinits)
                && tasks == old(tasks) + [EngineGone(e)]
      ensures !ownLoop ==>
                && e !in engines && EngineGone(e) !in tasks && (closing <==> old(closing) || !longRunning)
                && tasks == old(tasks) + (if closing && !old(closing) then [CloseTask] else [])
    {
      StepKeepsInv(Now(), EngineClosed(e, ownLoop));
      EndedWaits(Now());
      assert ClosingGraph.Distinct(engines);
      hide Inv;
      ended := ended + {e};
      if ownLoop {
        tasks := tasks + [EngineGone(e)];
      } else {
        CheckTerminationWhenEngineClosed(e);
      }
    }

    /** `ten_app_del_orphan_connection`, when the connection moves to an engine or has
        closed. */
    method DelOrphanConnection(c: nat)
      modifies this`orphans
      ensures orphans == ClosingGraph.RemovePtr(old(orphans), c)
      ensures old(ClosingGraph.Distinct(orphans)) ==> forall d :: d in orphans <==> d in old(orphans) && d != c
      ensures old(Inv(Now()) && Enabled(Now(), OrphanMigrated(c))) ==>
                Now() == Next(old(Now()), OrphanMigrated(c)) && Inv(Now())
    {
      if Inv(Now()) && Enabled(Now(), OrphanMigrated(c)) {
        MigratedKeepsInv(Now(), c);
      }
      if ClosingGraph.Distinct(orphans) {
        ClosingGraph.RemovePtrElements(orphans, c);
      }
      hide Inv;
      orphans := ClosingGraph.RemovePtr(orphans, c);
    }

    /** `ten_app_on_orphan_connection_closed` */
    method OnOrphanConnectionClosed(c: nat)
      modifies this
      ensures Now() == OrphanGone(old(Now()), c)
      ensures old(ClosingGraph.Distinct(orphans)) ==> forall d :: d in orphans <==> d in old(orphans) && d != c
      ensures engines == old(engines) && tasks == old(tasks) && closing == old(closing)
      ensures deinits == old(deinits) + (if closing && CouldBeClosed(Now()) then 1 else 0)
      ensures old(Inv(Now()) && c in orphans) ==> Inv(Now())
    {
      if Inv(Now()) && c in orphans {
        OrphanGoneKeepsInv(Now(), c);
      }
      hide Inv;
      DelOrphanConnection(c);
      if closing {
        ProceedToClose();
      }
    }

    /** `ten_app_on_protocol_closed` */
    method OnProtocolClosed()
      modifies this
      ensures Now() == EndpointGone(old(Now())) && endpoint == Gone && store == old(store)
      ensures engines == old(engines) && orphans == old(orphans) && tasks == old(tasks) && closing == old(closing)
      ensures deinits == old(deinits) + (if closing && CouldBeClosed(Now()) then 1 else 0)
      ensures old(Inv(Now()) && closeRan && endpoint == Open) ==> Inv(Now())
    {
      if Inv(Now()) && closeRan {
        PartGoneKeepsInv(Now());
      }
      hide Inv;
      endpoint := Gone;
      if closing {
        ProceedToClose();
      }
    }

    /** `ten_app_on_protocol_context_store_closed` */
    method OnProtocolContextStoreClosed()
      modifies this
      ensures Now() == StoreGone(old(Now())) && store == Gone && endpoint == old(endpoint)
      ensures engines == old(engines) && orphans == old(orphans) && tasks == old(tasks) && closing == old(closing)
      ensures deinits == old(deinits) + (if closing && CouldBeClosed(Now()) then 1 else 0)
      ensures old(Inv(Now()) && closeRan && store == Open) ==> Inv(Now())
    {
      if Inv(Now()) && closeRan {
        PartGoneKeepsInv(Now());
      }
      hide Inv;
      store := Gone;
      if closing {
        ProceedToClose();
      }
    }

    /** `ten_app_close_sync`; the parameters say what closes before the call that
        tells it to returns. */
    method CloseSync(atOnce: set<nat>, endpointAtOnce: bool, storeAtOnce: bool)
      modifies this
      ensures Now() == AppClosing.CloseSync(old(Now()), atOnce, endpointAtOnce, storeAtOnce)
      ensures old(Listed(Now()) && store == Open && deinits == 0) ==>
                && engines == old(engines) && (forall n :: n in old(engines) || n in old(orphans) ==> n in told)
                && (forall c :: c in orphans <==> c in old(orphans) && c !in atOnce)
                && (deinits == 1 <==> old(closing) && storeAtOnce && CouldBeClosed(Now()))
                && endpoint == (if old(endpoint) == Open && endpointAtOnce then Gone else old(endpoint))
                && store == (if storeAtOnce then Gone else Open) && tasks == old(tasks) && closing == old(closing)
    {
      if Listed(Now()) && store == Open && deinits == 0 {
        CloseSyncReaches(Now(), atOnce, endpointAtOnce, storeAtOnce);
      }
      hide Listed, Inv;
      closeRan, told := true, told + Names(engines) + Names(orphans);
      var cs := orphans;
      assert cs[0..] == cs;
      for i := 0 to |cs|
        invariant CloseOrphans(Now(), cs[i..], atOnce) == CloseOrphans(TellAll(old(Now())), cs, atOnce)
      {
        assert cs[i..][0] == cs[i] && cs[i..][1..] == cs[i + 1..];
        if cs[i] in atOnce {
          OnOrphanConnectionClosed(cs[i]);
        }
      }
      if endpoint == Open && endpointAtOnce {
        OnProtocolClosed();
      }
      if storeAtOnce {
        OnProtocolContextStoreClosed();
      }
    }

    /** The loop of the app runs its first task. */
    method RunFirstTask(atOnce: set<nat>, endpointAtOnce: bool, storeAtOnce: bool)
      requires Inv(Now()) && tasks != []
      modifies this
      ensures Now() == Next(old(Now()), RunTask(atOnce, endpointAtOnce, storeAtOnce)) && Inv(Now())
    {
      StepKeepsInv(Now(), RunTask(atOnce, endpointAtOnce, storeAtOnce));
      hide Inv;
      var t := tasks[0];
      tasks := tasks[1..];
      match t {
        case CloseTask => CloseSync(atOnce, endpointAtOnce, storeAtOnce);
        case EngineGone(e) => CheckTerminationWhenEngineClosed(e);
      }
    }

    /** `ten_app_add_engine` */
    method AddEngine(e: nat)
      requires e !in used
      modifies this`engines, this`late, this`used
      ensures Now() == Next(old(Now()), EngineCreated(e)) && engines == old(engines) + [e]
      ensures old(Inv(Now()) && deinits == 0) ==> Inv(Now())
    {
      if Inv(Now()) && deinits == 0 {
        StepKeepsInv(Now(), EngineCreated(e));
      }
      hide Inv;
      engines := engines + [e];
      late := late + Late(Now(), e);
      used := used + {e};
    }

    /** `ten_app_add_orphan_connection` */
    method AddOrphanConnection(c: nat)
      requires c !in used && endpoint == Open
      modifies this`orphans, this`late, this`used
      ensures Now() == Next(old(Now()), ClientAccepted(c)) && orphans == old(orphans) + [c]
      ensures old(Inv(Now())) ==> Inv(Now())
    {
      if Inv(Now()) {
        StepKeepsInv(Now(), ClientAccepted(c));
      }
      hide Inv;
      orphans := orphans + [c];
      late := late + Late(Now(), c);
      used := used + {c};
    }
  }
}
