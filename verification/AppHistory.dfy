/**
 The app as one knows it from the events alone: who was accepted or created and has
 not left since, what was told to close, and which tasks were posted.  In every run
 the lists and flags of module AppClosing say just that.
 */
module AppHistory {
  import opened AppClosing
  import ClosingGraph

  // ----- What a single event means -----

  predicate RunsCloseTask(s: State, e: Event) {
    e.RunTask? && s.tasks != [] && s.tasks[0].CloseTask?
  }

  /** Does the app, in its own loop, deal with the end of the engine `n`? */
  predicate Reclaims(s: State, e: Event, n: nat) {
    e == EngineClosed(n, false) || (e.RunTask? && s.tasks != [] && s.tasks[0] == EngineGone(n))
  }

  predicate ReclaimsOne(s: State, e: Event) {
    (e.EngineClosed? && !e.ownLoop) || (e.RunTask? && s.tasks != [] && s.tasks[0].EngineGone?)
  }

  /** Does the client `c` leave or move to an engine? */
  predicate ClientGoes(s: State, e: Event, c: nat) {
    e == OrphanClosed(c) || e == OrphanMigrated(c) || (RunsCloseTask(s, e) && c in e.atOnce)
  }

  predicate EndpointCloses(s: State, e: Event) {
    e.EndpointClosed? || (RunsCloseTask(s, e) && e.endpointAtOnce)
  }

  predicate StoreCloses(s: State, e: Event) {
    e.StoreClosed? || (RunsCloseTask(s, e) && e.storeAtOnce)
  }

  predicate Creates(e: Event, n: nat) {
    e == EngineCreated(n) || e == ClientAccepted(n)
  }

  // ----- What the first `i` events of a run mean -----

  ghost predicate RunFrom(ss: seq<State>, es: seq<Event>, endpoint: bool, longRunning: bool) {
    Run(ss, es) && ss[0] == Configured(endpoint, longRunning)
  }

  /** The client was accepted and has not left since. */
  predicate ClientOpen(ss: seq<State>, es: seq<Event>, i: nat, c: nat)
    requires i <= |es| < |ss|
  {
    i > 0 && (es[i - 1] == ClientAccepted(c) || (ClientOpen(ss, es, i - 1, c) && !ClientGoes(ss[i - 1], es[i - 1], c)))
  }

  /** The engine was created and the app has not dealt with its end since. */
  predicate EngineOpen(ss: seq<State>, es: seq<Event>, i: nat, n: nat)
    requires i <= |es| < |ss|
  {
    i > 0 && (es[i - 1] == EngineCreated(n) || (EngineOpen(ss, es, i - 1, n) && !Reclaims(ss[i - 1], es[i - 1], n)))
  }

  predicate EndpointOpen(ss: seq<State>, es: seq<Event>, i: nat, endpoint: bool)
    requires i <= |es| < |ss|
  {
    if i == 0 then endpoint else EndpointOpen(ss, es, i - 1, endpoint) && !EndpointCloses(ss[i - 1], es[i - 1])
  }

  predicate StoreOpen(ss: seq<State>, es: seq<Event>, i: nat)
    requires i <= |es| < |ss|
  {
    i == 0 || (StoreOpen(ss, es, i - 1) && !StoreCloses(ss[i - 1], es[i - 1]))
  }

  /** Somebody has called `close`, or an engine has ended and the app is not long running. */
  predicate Asked(ss: seq<State>, es: seq<Event>, i: nat, longRunning: bool)
    requires i <= |es| < |ss|
  {
    i > 0 && (Asked(ss, es, i - 1, longRunning) || es[i - 1].CloseCalled? || (!longRunning && ReclaimsOne(ss[i - 1], es[i - 1])))
  }

  predicate CloseRan(ss: seq<State>, es: seq<Event>, i: nat)
    requires i <= |es| < |ss|
  {
    i > 0 && (CloseRan(ss, es, i - 1) || RunsCloseTask(ss[i - 1], es[i - 1]))
  }

  /** It was open when the close task ran. */
  predicate WasTold(ss: seq<State>, es: seq<Event>, i: nat, n: nat)
    requires i <= |es| < |ss|
  {
    i > 0 && (WasTold(ss, es, i - 1, n)
              || (RunsCloseTask(ss[i - 1], es[i - 1]) && (ClientOpen(ss, es, i - 1, n) || EngineOpen(ss, es, i - 1, n))))
  }

  /** It was created when the close task had run. */
  predicate CameLate(ss: seq<State>, es: seq<Event>, i: nat, n: nat)
    requires i <= |es| < |ss|
  {
    i > 0 && (CameLate(ss, es, i - 1, n) || (Creates(es[i - 1], n) && CloseRan(ss, es, i - 1)))
  }

  /** The tasks posted to the loop of the app, in order: one for each engine that ended
      in a loop of its own, and the close task when the app is first asked to close. */
  function Posted(ss: seq<State>, es: seq<Event>, i: nat, longRunning: bool): (ts: seq<Task>)
    requires i <= |es| < |ss|
  {
    if i == 0 then []
    else
      var ended := if es[i - 1].EngineClosed? && es[i - 1].ownLoop then [EngineGone(es[i - 1].e)] else [];
      var asked := if Asked(ss, es, i, longRunning) && !Asked(ss, es, i - 1, longRunning) then [CloseTask] else [];
      Posted(ss, es, i - 1, longRunning) + ended + asked
  }

  /** How many tasks the loop has run. */
  function RunCount(es: seq<Event>, i: nat): (k: nat)
    requires i <= |es|
    ensures k <= i
  {
    if i == 0 then 0 else RunCount(es, i - 1) + if es[i - 1].RunTask? then 1 else 0
  }

  // ----- Single steps -----

  /** The lists never hold anything twice, whatever happens. */
  ghost predicate Clean(s: State) {
    && ClosingGraph.Distinct(s.engines) && ClosingGraph.Distinct(s.orphans)
    && (forall n :: n in s.engines || n in s.orphans ==> n in s.used)
  }

  /** `on_deinit` starts only when the app is closing and its two parts are closed. */
  ghost predicate Deinits(s: State, r: State) {
    r.deinits >= s.deinits && (r.deinits > s.deinits ==> r.closing && r.endpoint != Open && r.store != Open)
  }

  lemma {:induction false} OrphansClose(s: State, cs: seq<nat>, atOnce: set<nat>)
    requires ClosingGraph.Distinct(s.orphans)
    ensures var r := CloseOrphans(s, cs, atOnce);
            && r == s.(orphans := r.orphans, deinits := r.deinits) && Deinits(s, r) && ClosingGraph.Distinct(r.orphans)
            && forall c :: c in r.orphans <==> c in s.orphans && !(c in cs && c in atOnce)
    decreases |cs|
  {
    if cs != [] {
      ClosingGraph.RemovePtrElements(s.orphans, cs[0]);
      OrphansClose(if cs[0] in atOnce then OrphanGone(s, cs[0]) else s, cs[1..], atOnce);
    }
  }

  lemma SyncEffects(s: State, atOnce: set<nat>, endpointAtOnce: bool, storeAtOnce: bool)
    requires ClosingGraph.Distinct(s.orphans)
    ensures var r := CloseSync(s, atOnce, endpointAtOnce, storeAtOnce);
            && r == TellAll(s).(orphans := r.orphans, endpoint := if s.endpoint == Open && endpointAtOnce then Gone else s.endpoint,
                                store := if storeAtOnce then Gone else s.store, deinits := r.deinits)
            && Deinits(s, r) && ClosingGraph.Distinct(r.orphans)
            && forall c :: c in r.orphans <==> c in s.orphans && c !in atOnce
  {
    OrphansClose(TellAll(s), s.orphans, atOnce);
    hide CloseOrphans, ClosingGraph.Distinct;
  }

  lemma ReclaimEffects(s: State, n: nat)
    requires ClosingGraph.Distinct(s.engines)
    ensures var r := EngineReclaimed(s, n);
            && r == s.(engines := r.engines, closing := r.closing, tasks := r.tasks, closeTasks := r.closeTasks, deinits := r.deinits)
            && Deinits(s, r) && ClosingGraph.Distinct(r.engines) && (forall m :: m in r.engines <==> m in s.engines && m != n)
            && (r.closing <==> s.closing || !s.longRunning)
            && r.tasks == s.tasks + (if r.closing && !s.closing then [CloseTask] else [])
  {
    ClosingGraph.RemovePtrElements(s.engines, n);
  }

  /** What one event does to the lists, the parts and the flag, for every state and event. */
  ghost predicate Follows(s: State, e: Event, r: State) {
    && Clean(r)
    && (forall c :: c in r.orphans <==> e == ClientAccepted(c) || (c in s.orphans && !ClientGoes(s, e, c)))
    && (forall n :: n in r.engines <==> e == EngineCreated(n) || (n in s.engines && !Reclaims(s, e, n)))
    && (r.endpoint == Open <==> s.endpoint == Open && !EndpointCloses(s, e))
    && (r.store == Open <==> s.store == Open && !StoreCloses(s, e))
    && (r.closing <==> s.closing || e.CloseCalled? || (!s.longRunning && ReclaimsOne(s, e)))
    && r.longRunning == s.longRunning && Deinits(s, r)
  }

  ghost predicate PostsOnly(s: State, e: Event, r: State) {
    && (e.RunTask? ==> s.tasks != [])
    && r.tasks == (if e.RunTask? then s.tasks[1..] else s.tasks)
                + (if e.EngineClosed? && e.ownLoop then [EngineGone(e.e)] else [])
                + (if r.closing && !s.closing then [CloseTask] else [])
  }

  /** What one event does to the records of the past. */
  ghost predicate Records(s: State, e: Event, r: State) {
    && (r.closeRan <==> s.closeRan || RunsCloseTask(s, e))
    && (forall n :: n in r.told <==> n in s.told || (RunsCloseTask(s, e) && (n in s.orphans || n in s.engines)))
    && (forall n :: n in r.late <==> n in s.late || (Creates(e, n) && s.closeRan))
    && (forall n :: n in r.stopping <==> n in s.stopping || e == EngineStops(n) || e == ClientLeaves(n))
    && (forall n :: n in r.ended <==> n in s.ended || (e.EngineClosed? && e.e == n))
  }

  /** `r` is the state after the event `e`. */
  ghost predicate Steps(s: State, e: Event, r: State) {
    Follows(s, e, r) && PostsOnly(s, e, r) && Records(s, e, r)
  }

  lemma CloseTaskFollows(s: State, e: Event)
    requires Clean(s) && RunsCloseTask(s, e)
    ensures Steps(s, e, Next(s, e))
  {
    var t := s.(tasks := s.tasks[1..]);
    SyncEffects(t, e.atOnce, e.endpointAtOnce, e.storeAtOnce);
    var r := CloseSync(t, e.atOnce, e.endpointAtOnce, e.storeAtOnce);
    assert Next(s, e) == r;
    hide CloseSync, ClosingGraph.Distinct, Next, Follows, PostsOnly, Records;
    SyncFollows(s, e, r);
    SyncRecords(s, e, r);
  }

  lemma SyncFollows(s: State, e: Event, r: State)
    requires Clean(s) && RunsCloseTask(s, e) && r.engines == s.engines && ClosingGraph.Distinct(r.orphans) && Deinits(s, r)
    requires forall c :: c in r.orphans <==> c in s.orphans && c !in e.atOnce
    requires r.endpoint == (if s.endpoint == Open && e.endpointAtOnce then Gone else s.endpoint)
    requires r.store == (if e.storeAtOnce then Gone else s.store)
    requires r.tasks == s.tasks[1..] && r.closing == s.closing && r.longRunning == s.longRunning && r.used == s.used
    ensures Follows(s, e, r) && PostsOnly(s, e, r)
  {
    hide ClosingGraph.Distinct, Deinits;
  }

  lemma SyncRecords(s: State, e: Event, r: State)
    requires RunsCloseTask(s, e) && r.late == s.late && r.stopping == s.stopping && r.ended == s.ended
    requires r.closeRan && r.told == s.told + Names(s.engines) + Names(s.orphans)
    ensures Records(s, e, r)
  {
  }

  lemma ReclaimFollows(s: State, e: Event, p: State, n: nat)
    requires Clean(s) && Reclaims(s, e, n)
    requires p == s.(tasks := if e.RunTask? then s.tasks[1..] else s.tasks, ended := if e.RunTask? then s.ended else s.ended + {n})
    ensures Steps(s, e, EngineReclaimed(p, n))
  {
    ReclaimEffects(p, n);
    var r := EngineReclaimed(p, n);
    hide EngineReclaimed, ClosingGraph.Distinct, Follows, PostsOnly, Records, Deinits;
    assert Deinits(s, r) by {
      SameDeinits(p, s, r);
    }
    ReclaimSteps(s, e, r, n);
  }

  lemma SameDeinits(p: State, s: State, r: State)
    requires Deinits(p, r) && p.deinits == s.deinits
    ensures Deinits(s, r)
  {
  }

  lemma ReclaimSteps(s: State, e: Event, r: State, n: nat)
    requires Clean(s) && Reclaims(s, e, n) && ClosingGraph.Distinct(r.engines) && Deinits(s, r)
    requires r == s.(engines := r.engines, closing := r.closing, tasks := r.tasks, closeTasks := r.closeTasks, deinits := r.deinits,
                     ended := if e.RunTask? then s.ended else s.ended + {n})
    requires forall m :: m in r.engines <==> m in s.engines && m != n
    requires r.closing <==> s.closing || !s.longRunning
    requires r.tasks == (if e.RunTask? then s.tasks[1..] else s.tasks) + (if r.closing && !s.closing then [CloseTask] else [])
    ensures Steps(s, e, r)
  {
    hide ClosingGraph.Distinct, Deinits;
  }

  lemma CreationFollows(s: State, e: Event)
    requires Clean(s) && (e.EngineCreated? || e.ClientAccepted?) && Enabled(s, e)
    ensures Steps(s, e, Next(s, e))
  {
    var n := if e.EngineCreated? then e.e else e.c;
    LastDistinct(if e.EngineCreated? then s.engines else s.orphans, n);
    var r := Next(s, e);
    hide ClosingGraph.Distinct, Next;
  }

  lemma ClientFollows(s: State, e: Event)
    requires Clean(s) && (e.OrphanClosed? || e.OrphanMigrated?) && Enabled(s, e)
    ensures Steps(s, e, Next(s, e))
  {
    ClosingGraph.RemovePtrElements(s.orphans, e.c);
    var r := Next(s, e);
    assert r == s.(orphans := ClosingGraph.RemovePtr(s.orphans, e.c), deinits := r.deinits) && Deinits(s, r);
    hide ClosingGraph.Distinct, ClosingGraph.RemovePtr, Next, Follows, PostsOnly, Records, Deinits;
    ClientSteps(s, e, r);
  }

  lemma ClientSteps(s: State, e: Event, r: State)
    requires Clean(s) && (e.OrphanClosed? || e.OrphanMigrated?) && ClosingGraph.Distinct(r.orphans) && Deinits(s, r)
    requires r == s.(orphans := r.orphans, deinits := r.deinits) && forall c :: c in r.orphans <==> c in s.orphans && c != e.c
    ensures Steps(s, e, r)
  {
    hide ClosingGraph.Distinct, Deinits;
  }

  lemma StepFollows(s: State, e: Event)
    requires Clean(s) && Enabled(s, e)
    ensures Steps(s, e, Next(s, e))
  {
    hide Steps, Clean, CloseSync, EngineReclaimed;
    if e.RunTask? {
      if s.tasks[0].CloseTask? {
        CloseTaskFollows(s, e);
      } else {
        ReclaimFollows(s, e, s.(tasks := s.tasks[1..]), s.tasks[0].e);
      }
    } else if e.EngineClosed? && !e.ownLoop {
      ReclaimFollows(s, e, s.(ended := s.ended + {e.e}), e.e);
    } else if e.EngineCreated? || e.ClientAccepted? {
      CreationFollows(s, e);
    } else if e.OrphanClosed? || e.OrphanMigrated? {
      ClientFollows(s, e);
    } else {
      OtherFollows(s, e);
    }
  }

  lemma OtherFollows(s: State, e: Event)
    requires Clean(s) && Enabled(s, e)
    requires e.CloseCalled? || e.EngineStops? || e.ClientLeaves? || (e.EngineClosed? && e.ownLoop) || e.EndpointClosed? || e.StoreClosed?
    ensures Steps(s, e, Next(s, e))
  {
    hide ClosingGraph.Distinct;
  }

  // ----- Runs -----

  lemma {:induction false} RunFollows(ss: seq<State>, es: seq<Event>, i: nat, endpoint: bool, longRunning: bool)
    requires RunFrom(ss, es, endpoint, longRunning) && i <= |es|
    ensures |ss| == |es| + 1 && Clean(ss[i])
    ensures i > 0 ==> Follows(ss[i - 1], es[i - 1], ss[i]) && PostsOnly(ss[i - 1], es[i - 1], ss[i]) && Records(ss[i - 1], es[i - 1], ss[i])
  {
    hide Next, Enabled, Follows, PostsOnly, Records, Clean;
    if i == 0 {
      StartsClean(endpoint, longRunning);
    } else {
      RunFollows(ss, es, i - 1, endpoint, longRunning);
      StepFollows(ss[i - 1], es[i - 1]);
      FollowsClean(ss[i - 1], es[i - 1], ss[i]);
    }
  }

  lemma StartsClean(endpoint: bool, longRunning: bool)
    ensures Clean(Configured(endpoint, longRunning))
  {
  }

  lemma FollowsClean(s: State, e: Event, r: State)
    requires Follows(s, e, r)
    ensures Clean(r) && Deinits(s, r)
  {
  }

  /** In every run, whoever does what and when: the app lists exactly the clients that
      were accepted and have neither left nor moved to an engine, and the engines that
      were created and whose end it has not dealt with; its endpoint and its store are
      open until they are closed; and it is closing exactly if it was asked to. */
  lemma {:induction false} OpenExactly(ss: seq<State>, es: seq<Event>, i: nat, endpoint: bool, longRunning: bool)
    requires RunFrom(ss, es, endpoint, longRunning) && i <= |es|
    ensures forall c :: c in ss[i].orphans <==> ClientOpen(ss, es, i, c)
    ensures forall n :: n in ss[i].engines <==> EngineOpen(ss, es, i, n)
    ensures ss[i].endpoint == Open <==> EndpointOpen(ss, es, i, endpoint)
    ensures ss[i].store == Open <==> StoreOpen(ss, es, i)
    ensures ss[i].closing <==> Asked(ss, es, i, longRunning)
    ensures ss[i].longRunning == longRunning
  {
    hide Run, Clean, PostsOnly, Records, ClientGoes, Reclaims, ReclaimsOne, EndpointCloses, StoreCloses, Deinits;
    if i > 0 {
      OpenExactly(ss, es, i - 1, endpoint, longRunning);
      RunFollows(ss, es, i, endpoint, longRunning);
    }
  }

  /** `on_deinit` is not started while the endpoint or the store is open, in whatever
      order things are created. */
  lemma {:induction false} DeinitWaits(ss: seq<State>, es: seq<Event>, i: nat, endpoint: bool, longRunning: bool)
    requires RunFrom(ss, es, endpoint, longRunning) && i <= |es|
    ensures ss[i].deinits > 0 ==>
              !EndpointOpen(ss, es, i, endpoint) && !StoreOpen(ss, es, i) && Asked(ss, es, i, longRunning)
  {
    hide Run, Clean, PostsOnly, Records, Follows;
    OpenExactly(ss, es, i, endpoint, longRunning);
    if i > 0 {
      RunFollows(ss, es, i, endpoint, longRunning);
      DeinitWaits(ss, es, i - 1, endpoint, longRunning);
      FollowsClean(ss[i - 1], es[i - 1], ss[i]);
    }
  }

  /** Nothing is open, by the events. */
  ghost predicate AllGone(ss: seq<State>, es: seq<Event>, i: nat, endpoint: bool)
    requires i <= |es| < |ss|
  {
    && (forall c :: !ClientOpen(ss, es, i, c)) && (forall n :: !EngineOpen(ss, es, i, n))
    && !EndpointOpen(ss, es, i, endpoint) && !StoreOpen(ss, es, i)
  }

  /** In every run that creates nothing too late `on_deinit` has been started once if
      all that was ever opened is closed, and not at all before. */
  lemma DeinitExactly(ss: seq<State>, es: seq<Event>, i: nat, endpoint: bool, longRunning: bool)
    requires RunFrom(ss, es, endpoint, longRunning) && i <= |es|
    requires forall j {:trigger es[j]} :: 0 <= j < |es| ==> Orderly(ss[j], es[j])
    ensures ss[i].deinits == if AllGone(ss, es, i, endpoint) then 1 else 0
  {
    ClosesOnce(ss, es, i, endpoint, longRunning);
    OpenExactly(ss, es, i, endpoint, longRunning);
    hide Run, Inv, Orderly;
    if ss[i].engines != [] {
      assert EngineOpen(ss, es, i, ss[i].engines[0]);
    }
    if ss[i].orphans != [] {
      assert ClientOpen(ss, es, i, ss[i].orphans[0]);
    }
  }

  /** A long-running app that nobody closes stays open, whichever engines end. */
  lemma {:induction false} LongRunningStays(ss: seq<State>, es: seq<Event>, i: nat, endpoint: bool)
    requires RunFrom(ss, es, endpoint, true) && i <= |es|
    requires forall j :: 0 <= j < |es| ==> es[j] != CloseCalled
    ensures !ss[i].closing && ss[i].deinits == 0 && CloseTask !in ss[i].tasks
  {
    hide Run, Clean, Records, Follows;
    if i > 0 {
      RunFollows(ss, es, i, endpoint, true);
      LongRunningStays(ss, es, i - 1, endpoint);
      NotAsked(ss, es, i);
      OpenExactly(ss, es, i, endpoint, true);
      DeinitWaits(ss, es, i, endpoint, true);
    }
  }

  lemma {:induction false} NotAsked(ss: seq<State>, es: seq<Event>, i: nat)
    requires i <= |es| < |ss| && forall j :: 0 <= j < |es| ==> es[j] != CloseCalled
    ensures !Asked(ss, es, i, true)
  {
    if i > 0 {
      NotAsked(ss, es, i - 1);
    }
  }

  /** The loop of the app runs the tasks in the order in which they were posted: those
      it has run and those that wait are all that were ever posted. */
  lemma {:induction false} TasksInTurn(ss: seq<State>, es: seq<Event>, i: nat, endpoint: bool, longRunning: bool)
    requires RunFrom(ss, es, endpoint, longRunning) && i <= |es|
    ensures RunCount(es, i) <= |Posted(ss, es, i, longRunning)|
    ensures ss[i].tasks == Posted(ss, es, i, longRunning)[RunCount(es, i)..]
  {
    hide Run, Clean, Records, Follows, Asked;
    if i > 0 {
      RunFollows(ss, es, i, endpoint, longRunning);
      TasksInTurn(ss, es, i - 1, endpoint, longRunning);
      OpenExactly(ss, es, i - 1, endpoint, longRunning);
      OpenExactly(ss, es, i, endpoint, longRunning);
      var s, e, r := ss[i - 1], es[i - 1], ss[i];
      var ended := if e.EngineClosed? && e.ownLoop then [EngineGone(e.e)] else [];
      var asked := if r.closing && !s.closing then [CloseTask] else [];
      var before := Posted(ss, es, i - 1, longRunning);
      assert Posted(ss, es, i, longRunning) == before + ended + asked;
      InTurn(before, RunCount(es, i - 1), s.tasks, e.RunTask?, ended, asked);
      hide Posted;
    }
  }

  lemma InTurn<T>(before: seq<T>, k: nat, q: seq<T>, runs: bool, a: seq<T>, b: seq<T>)
    requires k <= |before| && q == before[k..] && (runs ==> q != [])
    ensures var n := if runs then k + 1 else k;
            n <= |before| && (if runs then q[1..] else q) + a + b == (before + a + b)[n..]
  {
  }

  /** What the app records of the past is what happened: whom the close task told, what
      was created after it, who has a reason of its own to end, and who has ended. */
  lemma {:induction false} ToldExactly(ss: seq<State>, es: seq<Event>, i: nat, endpoint: bool, longRunning: bool)
    requires RunFrom(ss, es, endpoint, longRunning) && i <= |es|
    ensures ss[i].closeRan <==> CloseRan(ss, es, i)
    ensures forall n :: n in ss[i].told <==> WasTold(ss, es, i, n)
    ensures forall n :: n in ss[i].late <==> CameLate(ss, es, i, n)
    ensures forall n :: n in ss[i].stopping <==> EngineStops(n) in es[..i] || ClientLeaves(n) in es[..i]
    ensures forall n :: n in ss[i].ended <==> EngineClosed(n, true) in es[..i] || EngineClosed(n, false) in es[..i]
  {
    hide Run, Clean, PostsOnly, Follows, RunsCloseTask;
    if i > 0 {
      ToldExactly(ss, es, i - 1, endpoint, longRunning);
      OpenExactly(ss, es, i - 1, endpoint, longRunning);
      RunFollows(ss, es, i, endpoint, longRunning);
      assert es[..i] == es[..i - 1] + [es[i - 1]];
    }
  }

  /** An engine that has ended in a loop of its own is listed until the loop of the app
      runs the task for it: its thread edits no list of the app. */
  lemma OwnLoopWaits(ss: seq<State>, es: seq<Event>, i: nat, n: nat, endpoint: bool, longRunning: bool)
    requires RunFrom(ss, es, endpoint, longRunning) && i < |es|
    requires EngineClosed(n, true) in es[..i] && n in ss[i].engines && n !in ss[i + 1].engines
    ensures es[i].RunTask? && ss[i].tasks != [] && ss[i].tasks[0] == EngineGone(n)
  {
    hide PostsOnly, Records, Clean, Follows, Next;
    ToldExactly(ss, es, i, endpoint, longRunning);
    RunFollows(ss, es, i + 1, endpoint, longRunning);
    assert Enabled(ss[i], es[i]);
    hide Run, Enabled;
    Leaves(ss[i], es[i], ss[i + 1], n);
    hide Reclaims;
    StillRunning(ss[i], es[i], n);
  }

  lemma Leaves(s: State, e: Event, r: State, n: nat)
    requires Follows(s, e, r) && n in s.engines && n !in r.engines
    ensures Reclaims(s, e, n)
  {
    hide Clean;
  }

  lemma StillRunning(s: State, e: Event, n: nat)
    requires Enabled(s, e) && Reclaims(s, e, n) && n in s.ended
    ensures e.RunTask? && s.tasks != [] && s.tasks[0] == EngineGone(n)
  {
  }

  /** The end of an engine in a loop of its own changes nothing of the app but the
      tasks that wait for its loop. */
  lemma OwnLoopPosts(s: State, n: nat)
    requires Clean(s) && Enabled(s, EngineClosed(n, true))
    ensures var r := Next(s, EngineClosed(n, true));
            && r.tasks == s.tasks + [EngineGone(n)]
            && (forall m :: m in r.engines <==> m in s.engines) && (forall c :: c in r.orphans <==> c in s.orphans)
            && r.closing == s.closing && r.deinits == s.deinits
  {
    StepFollows(s, EngineClosed(n, true));
    hide ClosingGraph.Distinct;
  }

  // ----- A whole life -----

  /** A client comes and moves to an engine, another one comes and leaves, the engine
      ends in its own loop, and with it the app. */
  const LIFE: seq<Event> := [
    ClientAccepted(0), EngineCreated(1), OrphanMigrated(0), ClientAccepted(2), ClientLeaves(2), OrphanClosed(2),
    EngineStops(1), EngineClosed(1, true), RunTask({}, false, false), CloseCalled, RunTask({}, false, false),
    EndpointClosed, StoreClosed]

  /** An app with an endpoint, before it closes. */
  function Young(tasks: seq<Task>, engines: seq<nat>, orphans: seq<nat>, stopping: set<nat>, ended: set<nat>, used: set<nat>): State {
    State(false, tasks, engines, orphans, Open, Open, false, 0, 0, false, {}, stopping, ended, used, {})
  }

  function Old(tasks: seq<Task>, closeRan: bool, endpoint: Part, store: Part, deinits: nat): State {
    State(true, tasks, [], [], endpoint, store, false, deinits, 1, closeRan, {}, {1, 2}, {1}, {0, 1, 2}, {})
  }

  function Age(i: nat): State {
    match i
    case 0 => Young([], [], [], {}, {}, {})
    case 1 => Young([], [], [0], {}, {}, {0})
    case 2 => Young([], [1], [0], {}, {}, {0, 1})
    case 3 => Young([], [1], [], {}, {}, {0, 1})
    case 4 => Young([], [1], [2], {}, {}, {0, 1, 2})
    case 5 => Young([], [1], [2], {2}, {}, {0, 1, 2})
    case 6 => Young([], [1], [], {2}, {}, {0, 1, 2})
    case 7 => Young([], [1], [], {1, 2}, {}, {0, 1, 2})
    case 8 => Young([EngineGone(1)], [1], [], {1, 2}, {1}, {0, 1, 2})
    case 9 => Old([CloseTask], false, Open, Open, 0)
    case 10 => Old([CloseTask], false, Open, Open, 0)
    case 11 => Old([], true, Open, Open, 0)
    case 12 => Old([], true, Gone, Open, 0)
    case _ => Old([], true, Gone, Gone, 1)
  }

  ghost predicate Ages(i: nat) {
    i < |LIFE| && Enabled(Age(i), LIFE[i]) && Age(i + 1) == Next(Age(i), LIFE[i])
  }

  lemma Youth()
    ensures Ages(0) && Ages(1) && Ages(2) && Ages(3)
  {
    assert ClosingGraph.RemovePtr([0], 0) == [];
  }

  lemma MiddleAge()
    ensures Ages(4) && Ages(5) && Ages(6) && Ages(7)
  {
    assert ClosingGraph.RemovePtr([2], 2) == [];
  }

  lemma EngineGoes()
    ensures Ages(8)
  {
    assert ClosingGraph.RemovePtr([1], 1) == [] && [EngineGone(1)][1..] == [];
  }

  lemma OldAge()
    ensures Ages(9) && Ages(10)
  {
    assert [CloseTask][1..] == [];
  }

  lemma LastDays()
    ensures Ages(11) && Ages(12)
  {
  }

  lemma WhenDeinit(i: nat)
    ensures Age(0) == Configured(true, false) && Age(i).deinits == (if i < 13 then 0 else 1)
  {
  }

  /** Every kind of event happens in this run, and `on_deinit` is started by the last. */
  lemma WholeLife() returns (ss: seq<State>)
    ensures RunFrom(ss, LIFE, true, false) && ss[13].deinits == 1 && forall i :: 0 <= i < 13 ==> ss[i].deinits == 0
  {
    hide Next, Enabled, Age;
    Youth();
    MiddleAge();
    EngineGoes();
    OldAge();
    LastDays();
    ss := seq(14, i requires 0 <= i < 14 => Age(i));
    var es := LIFE;
    forall i | 0 <= i < 14 ensures Age(0) == Configured(true, false) && ss[i].deinits == if i < 13 then 0 else 1 {
      WhenDeinit(i);
    }
    forall i {:trigger es[i]} | 0 <= i < |es| ensures Enabled(ss[i], es[i]) && ss[i + 1] == Next(ss[i], es[i]) {
      assert Ages(i);
    }
    assert ss[0].deinits == 0;
  }
}
