/**
 Shutting an app down: any number of threads ask it to close, what it owns closes
 at once or later, and its `on_deinit` has to start once, when all of it is closed.
 */
module AppClosing {
  import opened ClosingGraph

  datatype Part = Absent | Open | Gone

  datatype Task = CloseTask | EngineGone(e: nat)

  /** The fields of the app, with engines and orphan connections named by numbers,
      and what happened so far: how often `on_deinit` was started and a close task
      posted, whether the close task ran, whom it told to close, who ends for a
      reason of its own, which engines have ended, which numbers were used, and which
      of them `late`, after the close task told all to close. */
  datatype State = State(
    closing: bool, tasks: seq<Task>, engines: seq<nat>, orphans: seq<nat>, endpoint: Part, store: Part, longRunning: bool,
    deinits: nat, closeTasks: nat, closeRan: bool,
    told: set<nat>, stopping: set<nat>, ended: set<nat>, used: set<nat>, late: set<nat>)

  /** A configured app: its context store exists, an endpoint only if it has an address. */
  function Configured(endpoint: bool, longRunning: bool): State {
    State(false, [], [], [], if endpoint then Open else Absent, Open, longRunning, 0, 0, false, {}, {}, {}, {}, {})
  }

  /** What happens to the app, each in one step of one thread. The close task says
      which of the things it tells to close do so before the call returns. An engine
      or an orphan closes only if it was told to or has a reason of its own: its graph
      is stopped, its client has left. */
  datatype Event =
    | CloseCalled
    | EngineStops(e: nat)
    | ClientLeaves(c: nat)
    | RunTask(atOnce: set<nat>, endpointAtOnce: bool, storeAtOnce: bool)
    | EngineClosed(e: nat, ownLoop: bool)
    | OrphanClosed(c: nat)
    | EndpointClosed
    | StoreClosed
    | EngineCreated(e: nat)
    | ClientAccepted(c: nat)
    | OrphanMigrated(c: nat)

  // ----- The functions of the program -----

  /** `ten_app_could_be_close` */
  predicate CouldBeClosed(s: State) {
    s.engines == [] && s.orphans == [] && s.endpoint != Open && s.store != Open
  }

  /** `ten_app_proceed_to_close` */
  function Proceed(s: State): State {
    if CouldBeClosed(s) then s.(deinits := s.deinits + 1) else s
  }

  function ProceedIfClosing(s: State): State {
    if s.closing then Proceed(s) else s
  }

  /** `ten_app_close` */
  function Close(s: State): State {
    if s.closing then s else s.(closing := true, tasks := s.tasks + [CloseTask], closeTasks := s.closeTasks + 1)
  }

  /** `ten_app_check_termination_when_engine_closed` */
  function EngineReclaimed(s: State, e: nat): State {
    var r := s.(engines := RemovePtr(s.engines, e));
    ProceedIfClosing(if s.longRunning then r else Close(r))
  }

  /** `ten_app_on_orphan_connection_closed` */
  function OrphanGone(s: State, c: nat): State {
    ProceedIfClosing(s.(orphans := RemovePtr(s.orphans, c)))
  }

  function EndpointGone(s: State): State {
    ProceedIfClosing(s.(endpoint := Gone))
  }

  function StoreGone(s: State): State {
    ProceedIfClosing(s.(store := Gone))
  }

  /** The loop of `ten_app_close_sync` over the orphans it found. */
  function CloseOrphans(s: State, cs: seq<nat>, atOnce: set<nat>): State
    decreases |cs|
  {
    if cs == [] then s
    else CloseOrphans(if cs[0] in atOnce then OrphanGone(s, cs[0]) else s, cs[1..], atOnce)
  }

  function Names(q: seq<nat>): set<nat> {
    set n | n in q
  }

  /** Everything listed when the close task runs is told to close. */
  function TellAll(s: State): State {
    s.(closeRan := true, told := s.told + Names(s.engines) + Names(s.orphans))
  }

  /** `ten_app_close_sync` */
  function CloseSync(s: State, atOnce: set<nat>, endpointAtOnce: bool, storeAtOnce: bool): State {
    var b := CloseOrphans(TellAll(s), s.orphans, atOnce);
    var c := if b.endpoint == Open && endpointAtOnce then EndpointGone(b) else b;
    if storeAtOnce then StoreGone(c) else c
  }

  predicate Enabled(s: State, e: Event) {
    match e
    case CloseCalled => true
    case EngineStops(n) => n in s.engines && n !in s.ended
    case ClientLeaves(c) => c in s.orphans
    case RunTask(_, _, _) => s.tasks != []
    case EngineClosed(n, _) => n in s.engines && n !in s.ended && MayEnd(s, n)
    case OrphanClosed(c) => c in s.orphans && MayEnd(s, c)
    case EndpointClosed => s.endpoint == Open && s.closeRan
    case StoreClosed => s.store == Open && s.closeRan
    case EngineCreated(n) => n !in s.used
    case ClientAccepted(c) => c !in s.used && s.endpoint == Open
    case OrphanMigrated(c) => c in s.orphans && c !in s.told && s.engines != []
  }

  predicate MayEnd(s: State, n: nat) {
    n in s.told || n in s.stopping
  }

  function Next(s: State, e: Event): State
    requires Enabled(s, e)
  {
    match e
    case CloseCalled => Close(s)
    case EngineStops(n) => s.(stopping := s.stopping + {n})
    case ClientLeaves(c) => s.(stopping := s.stopping + {c})
    case RunTask(atOnce, endpointAtOnce, storeAtOnce) =>
      var t := s.(tasks := s.tasks[1..]);
      if s.tasks[0].CloseTask? then CloseSync(t, atOnce, endpointAtOnce, storeAtOnce)
      else EngineReclaimed(t, s.tasks[0].e)
    case EngineClosed(n, ownLoop) =>
      if ownLoop then s.(ended := s.ended + {n}, tasks := s.tasks + [EngineGone(n)])
      else EngineReclaimed(s.(ended := s.ended + {n}), n)
    case OrphanClosed(c) => OrphanGone(s, c)
    case EndpointClosed => EndpointGone(s)
    case StoreClosed => StoreGone(s)
    case EngineCreated(n) => s.(engines := s.engines + [n], used := s.used + {n}, late := s.late + Late(s, n))
    case ClientAccepted(c) => s.(orphans := s.orphans + [c], used := s.used + {c}, late := s.late + Late(s, c))
    case OrphanMigrated(c) => s.(orphans := RemovePtr(s.orphans, c))
  }

  function Late(s: State, n: nat): set<nat> {
    if s.closeRan then {n} else {}
  }

  // ----- Invariants -----

  ghost predicate Listed(s: State) {
    && Distinct(s.engines) && Distinct(s.orphans)
    && (forall e :: e in s.engines || e in s.ended ==> e in s.used)
    && (forall c :: c in s.orphans ==> c in s.used)
  }

  /** The tasks waiting: the close task at most once, and one for each engine that
      has ended in its own loop and is still listed. */
  ghost predicate Waiting(s: State) {
    && (forall i, j :: 0 <= i < j < |s.tasks| ==> s.tasks[i] != s.tasks[j])
    && (forall t :: t in s.tasks && t.EngineGone? ==> t.e in s.engines && t.e in s.ended)
    && (forall e :: e in s.engines && e in s.ended ==> EngineGone(e) in s.tasks)
    && s.closeTasks == (if s.closing then 1 else 0)
    && (CloseTask in s.tasks <==> s.closing && !s.closeRan)
    && (s.closeRan ==> s.closing)
  }

  /** Whatever was open when the close task ran has been told to close. */
  ghost predicate Told(s: State) {
    && s.store != Absent
    && (s.store == Gone ==> s.closeRan) && (s.endpoint == Gone ==> s.closeRan)
    && s.deinits == (if CouldBeClosed(s) then 1 else 0)
  }

  /** The close task told all that was listed then; what it did not tell came late. */
  ghost predicate Reached(s: State) {
    && (s.closeRan ==> forall n :: n in s.engines || n in s.orphans ==> n in s.told || n in s.late)
    && (!s.closeRan ==> s.told == {} && s.late == {})
    && s.told !! s.late && s.told <= s.used && s.late <= s.used
    && (forall n :: n in s.ended ==> MayEnd(s, n))
  }

  ghost predicate Inv(s: State) {
    Listed(s) && Waiting(s) && Told(s) && Reached(s)
  }

  /** Nothing is created once `on_deinit` was started. */
  predicate Orderly(s: State, e: Event) {
    e.EngineCreated? || e.ClientAccepted? ==> s.deinits == 0
  }

  lemma ConfiguredInv(endpoint: bool, longRunning: bool)
    ensures Inv(Configured(endpoint, longRunning))
  {
  }

  lemma LastDistinct<T>(s: seq<T>, e: T)
    requires Distinct(s) && e !in s
    ensures Distinct(s + [e]) && forall f :: f in s + [e] <==> f in s || f == e
  {
  }

  /** An engine leaves, and the app closes unless it is long running; `on_deinit` starts
      if that was the last. */
  lemma EngineReclaimedKeepsInv(s: State, p: State, e: nat)
    requires Inv(s) && e in s.engines && e in p.ended && MayEnd(s, e)
    requires p == s.(tasks := p.tasks, ended := p.ended)
    requires forall i, j :: 0 <= i < j < |p.tasks| ==> p.tasks[i] != p.tasks[j]
    requires forall t :: t in p.tasks <==> t in s.tasks && t != EngineGone(e)
    requires forall n :: n in p.ended <==> n in s.ended || n == e
    ensures var r := EngineReclaimed(p, e);
            && Inv(r) && (r.closing <==> s.closing || !s.longRunning) && (forall n :: n in r.engines <==> n in s.engines && n != e)
            && r.tasks == p.tasks + (if r.closing && !s.closing then [CloseTask] else [])
  {
    RemovePtrElements(s.engines, e);
    var r := p.(engines := RemovePtr(p.engines, e));
    assert Waiting(r);
    if !s.longRunning && !s.closing {
      LastDistinct(r.tasks, CloseTask);
    }
  }

  lemma OrphanGoneKeepsInv(s: State, c: nat)
    requires Inv(s) && c in s.orphans
    ensures Inv(OrphanGone(s, c))
  {
    RemovePtrElements(s.orphans, c);
  }

  lemma CloseKeepsInv(s: State)
    requires Inv(s)
    ensures Inv(Close(s))
  {
    if !s.closing {
      LastDistinct(s.tasks, CloseTask);
    }
  }

  /** While the store is open no orphan that closes can be the last thing to close. */
  lemma {:induction false} CloseOrphansKeeps(s: State, cs: seq<nat>, atOnce: set<nat>)
    requires Listed(s) && s.store == Open && s.deinits == 0 && Distinct(cs) && forall c :: c in cs ==> c in s.orphans
    ensures var r := CloseOrphans(s, cs, atOnce);
            && r == s.(orphans := r.orphans) && Distinct(r.orphans)
            && forall c :: c in r.orphans <==> c in s.orphans && !(c in cs && c in atOnce)
    decreases |cs|
  {
    if cs != [] {
      RemovePtrElements(s.orphans, cs[0]);
      assert cs[0] !in cs[1..];
      CloseOrphansKeeps(if cs[0] in atOnce then OrphanGone(s, cs[0]) else s, cs[1..], atOnce);
    }
  }

  lemma CloseSyncKeepsInv(s: State, t: State, atOnce: set<nat>, endpointAtOnce: bool, storeAtOnce: bool)
    requires Inv(s) && s.tasks != [] && s.tasks[0] == CloseTask && t == s.(tasks := s.tasks[1..])
    ensures Inv(CloseSync(t, atOnce, endpointAtOnce, storeAtOnce))
  {
    assert CloseTask in s.tasks && s.store == Open && s.deinits == 0;
    CloseSyncFields(t, atOnce, endpointAtOnce, storeAtOnce);
    FirstTaken(s.tasks);
    hide CloseSync;
  }

  lemma CloseSyncFields(s: State, atOnce: set<nat>, endpointAtOnce: bool, storeAtOnce: bool)
    requires Listed(s) && s.store == Open && s.deinits == 0
    ensures var r := CloseSync(s, atOnce, endpointAtOnce, storeAtOnce);
            && r == TellAll(s).(orphans := r.orphans, endpoint := if s.endpoint == Open && endpointAtOnce then Gone else s.endpoint,
                                store := if storeAtOnce then Gone else Open, deinits := r.deinits)
            && Distinct(r.orphans) && (forall c :: c in r.orphans ==> c in s.orphans)
            && r.deinits == if s.closing && CouldBeClosed(r) then 1 else 0
  {
    CloseOrphansKeeps(TellAll(s), s.orphans, atOnce);
    hide CloseOrphans, Distinct, Listed;
  }

  /** The close task tells everything listed, takes exactly those out that close at
      once, and starts `on_deinit` if that was all. */
  lemma CloseSyncReaches(s: State, atOnce: set<nat>, endpointAtOnce: bool, storeAtOnce: bool)
    requires Listed(s) && s.store == Open && s.deinits == 0
    ensures var r := CloseSync(s, atOnce, endpointAtOnce, storeAtOnce);
            && r.engines == s.engines && (forall n :: n in s.engines || n in s.orphans ==> n in r.told)
            && (forall c :: c in r.orphans <==> c in s.orphans && c !in atOnce)
            && (r.deinits == 1 <==> s.closing && storeAtOnce && CouldBeClosed(r))
            && r.endpoint == (if s.endpoint == Open && endpointAtOnce then Gone else s.endpoint)
            && r.store == (if storeAtOnce then Gone else Open) && r.tasks == s.tasks && r.closing == s.closing
  {
    CloseOrphansKeeps(TellAll(s), s.orphans, atOnce);
    hide CloseOrphans, Listed;
  }

  lemma FirstTaken<T>(q: seq<T>)
    requires q != [] && Distinct(q)
    ensures Distinct(q[1..]) && forall t :: t in q[1..] <==> t in q && t != q[0]
  {
  }

  /** Every step that creates nothing after `on_deinit` was started keeps the invariants. */
  lemma StepKeepsInv(s: State, e: Event)
    requires Inv(s) && Enabled(s, e) && Orderly(s, e)
    ensures Inv(Next(s, e))
  {
    EndedWaits(s);
    hide EngineReclaimed, OrphanGone, CloseSync, Close, ProceedIfClosing, Inv;
    match e
    case CloseCalled => CloseKeepsInv(s);
    case EngineStops(n) => ReasonKeepsInv(s, n);
    case ClientLeaves(c) => ReasonKeepsInv(s, c);
    case RunTask(atOnce, endpointAtOnce, storeAtOnce) =>
      var t := s.(tasks := s.tasks[1..]);
      if s.tasks[0].CloseTask? {
        CloseSyncKeepsInv(s, t, atOnce, endpointAtOnce, storeAtOnce);
      } else {
        FirstTaken(s.tasks);
        EngineReclaimedKeepsInv(s, t, s.tasks[0].e);
      }
    case EngineClosed(n, ownLoop) =>
      if ownLoop {
        EndedKeepsInv(s, n);
      } else {
        EngineReclaimedKeepsInv(s, s.(ended := s.ended + {n}), n);
      }
    case OrphanClosed(c) => OrphanGoneKeepsInv(s, c);
    case EndpointClosed => PartGoneKeepsInv(s);
    case StoreClosed => PartGoneKeepsInv(s);
    case EngineCreated(n) => CreatedKeepsInv(s, n);
    case ClientAccepted(c) => CreatedKeepsInv(s, c);
    case OrphanMigrated(c) => MigratedKeepsInv(s, c);
  }

  /** A waiting task of an engine is of one that has ended and is still listed. */
  lemma EndedWaits(s: State)
    requires Inv(s)
    ensures Distinct(s.tasks)
    ensures forall t :: t in s.tasks && t.EngineGone? ==> t.e in s.engines && t.e in s.ended && MayEnd(s, t.e)
    ensures forall n :: n in s.engines && n !in s.ended ==> EngineGone(n) !in s.tasks
    ensures forall n :: n in s.engines || n in s.orphans ==> n in s.used
  {
  }

  lemma ReasonKeepsInv(s: State, n: nat)
    requires Inv(s)
    ensures Inv(s.(stopping := s.stopping + {n}))
  {
  }

  /** An engine has ended in its own loop, and the app has a task for it. */
  lemma EndedKeepsInv(s: State, n: nat)
    requires Inv(s) && n in s.engines && n !in s.ended && MayEnd(s, n)
    ensures Inv(s.(ended := s.ended + {n}, tasks := s.tasks + [EngineGone(n)]))
  {
    LastDistinct(s.tasks, EngineGone(n));
  }

  lemma MigratedKeepsInv(s: State, c: nat)
    requires Inv(s) && c in s.orphans && s.engines != []
    ensures Inv(s.(orphans := RemovePtr(s.orphans, c)))
  {
    RemovePtrElements(s.orphans, c);
  }

  lemma PartGoneKeepsInv(s: State)
    requires Inv(s) && s.closeRan
    ensures s.endpoint == Open ==> Inv(EndpointGone(s))
    ensures s.store == Open ==> Inv(StoreGone(s))
  {
  }

  lemma CreatedKeepsInv(s: State, n: nat)
    requires Inv(s) && n !in s.used && s.deinits == 0
    ensures Inv(s.(engines := s.engines + [n], used := s.used + {n}, late := s.late + Late(s, n)))
    ensures Inv(s.(orphans := s.orphans + [n], used := s.used + {n}, late := s.late + Late(s, n)))
  {
    LastDistinct(s.engines, n);
    LastDistinct(s.orphans, n);
  }

  // ----- What runs achieve -----

  ghost predicate Run(ss: seq<State>, es: seq<Event>) {
    && |ss| == |es| + 1
    && forall i {:trigger es[i]} :: 0 <= i < |es| ==> Enabled(ss[i], es[i]) && ss[i + 1] == Next(ss[i], es[i])
  }

  /** Over any interleaving, however many threads close the app, one close task is
      posted, and `on_deinit` has started once if all the app owns is closed, and
      otherwise not at all. */
  lemma {:induction false} ClosesOnce(ss: seq<State>, es: seq<Event>, i: nat, endpoint: bool, longRunning: bool)
    requires Run(ss, es) && i < |ss| && ss[0] == Configured(endpoint, longRunning)
    requires forall j {:trigger es[j]} :: 0 <= j < |es| ==> Orderly(ss[j], es[j])
    ensures Inv(ss[i])
    ensures ss[i].closeTasks == if ss[i].closing then 1 else 0
    ensures ss[i].deinits == if CouldBeClosed(ss[i]) then 1 else 0
  {
    if i == 0 {
      ConfiguredInv(endpoint, longRunning);
    } else {
      hide Next, Orderly;
      ClosesOnce(ss, es, i - 1, endpoint, longRunning);
      assert Orderly(ss[i - 1], es[i - 1]);
      StepKeepsInv(ss[i - 1], es[i - 1]);
    }
  }

  /** `on_deinit` starts in the very step that closes the last thing open, and only
      after the app was told to close. */
  lemma DeinitAtTheLast(s: State, e: Event)
    requires Inv(s) && Enabled(s, e) && Orderly(s, e) && Next(s, e).deinits != s.deinits
    ensures !CouldBeClosed(s) && CouldBeClosed(Next(s, e)) && s.deinits == 0 && Next(s, e).deinits == 1 && Next(s, e).closing
  {
    StepKeepsInv(s, e);
    hide Next;
  }

  /** Orders of events in which an engine is created too late are not safe: when it
      stops, `on_deinit` starts again. */
  lemma DisorderlyDeinitsTwice(s: State, e: Event)
    requires Inv(s) && Enabled(s, e) && !Orderly(s, e)
    ensures e.EngineCreated? && Enabled(Next(s, e), EngineStops(e.e))
    ensures var n := Next(Next(s, e), EngineStops(e.e));
            Enabled(n, EngineClosed(e.e, false)) && Next(n, EngineClosed(e.e, false)).deinits == 2
  {
    assert CouldBeClosed(s) && s.closing && e.EngineCreated?;
    assert [e.e][1..] == [];
  }

  /** An app without an endpoint that is told to close: `on_deinit` starts in the close
      task, and an engine that is created then makes it start again. */
  lemma EngineAfterDeinit() returns (ss: seq<State>)
    ensures Run(ss, [CloseCalled, RunTask({}, false, true), EngineCreated(0), EngineStops(0), EngineClosed(0, false)])
    ensures ss[0] == Configured(false, false) && ss[2].deinits == 1 && !Orderly(ss[2], EngineCreated(0)) && ss[5].deinits == 2
  {
    var a := Configured(false, false);
    var b := Next(a, CloseCalled);
    assert b.tasks == [CloseTask];
    var c := Next(b, RunTask({}, false, true));
    assert c.deinits == 1 && c.engines == [] && c.closing;
    var d := Next(c, EngineCreated(0));
    var e := Next(d, EngineStops(0));
    assert e.engines == [0] && [0][1..] == [];
    var f := Next(e, EngineClosed(0, false));
    assert f.deinits == 2;
    hide Next;
    ss := [a, b, c, d, e, f];
  }

  // ----- What is created after the close task ran -----

  /** Nobody told it to close, and it has no reason of its own to end. */
  predicate Stranded(s: State, n: nat) {
    n in s.late && n !in s.stopping && (n in s.engines || n in s.orphans)
  }

  /** The events that give it a reason or take it out of the app's lists. */
  predicate Releases(e: Event, n: nat) {
    e == EngineStops(n) || e == ClientLeaves(n) || e == OrphanMigrated(n)
  }

  lemma StrandedStays(s: State, e: Event, n: nat)
    requires Inv(s) && Enabled(s, e) && Stranded(s, n) && !Releases(e, n)
    ensures Orderly(s, e) && Inv(Next(s, e)) && Stranded(Next(s, e), n)
  {
    StepKeepsInv(s, e);
    if e.EngineClosed? {
      RemovePtrElements(s.engines, e.e);
    } else if e.OrphanClosed? || e.OrphanMigrated? {
      RemovePtrElements(s.orphans, e.c);
    } else if e.RunTask? {
      assert s.tasks[0] in s.tasks;
      if s.tasks[0].EngineGone? {
        RemovePtrElements(s.engines, s.tasks[0].e);
      }
    }
  }

  /** What was created after the close task ran keeps the app from `on_deinit` for
      ever, whatever else happens, until it ends for a reason of its own. */
  lemma {:induction false} StrandedForEver(ss: seq<State>, es: seq<Event>, n: nat, i: nat)
    requires Run(ss, es) && i < |ss| && Inv(ss[0]) && Stranded(ss[0], n)
    requires forall j {:trigger es[j]} :: 0 <= j < |es| ==> !Releases(es[j], n)
    ensures Inv(ss[i]) && Stranded(ss[i], n) && ss[i].deinits == 0
  {
    if i > 0 {
      hide Inv, Next, Stranded, Enabled;
      StrandedForEver(ss, es, n, i - 1);
      assert !Releases(es[i - 1], n);
      StrandedStays(ss[i - 1], es[i - 1], n);
    }
    StrandedWaits(ss[i], n);
  }

  lemma StrandedWaits(s: State, n: nat)
    requires Inv(s) && Stranded(s, n)
    ensures s.deinits == 0
  {
  }

  /** The events by which what has been told to close, or ends anyhow, does so. */
  predicate Completes(e: Event) {
    e.RunTask? || e.EngineClosed? || e.OrphanClosed? || e.EndpointClosed? || e.StoreClosed?
  }

  function Running(es: seq<nat>, ended: set<nat>): nat {
    if es == [] then 0 else (if es[0] in ended then 0 else 1) + Running(es[1..], ended)
  }

  /** An upper bound on the number of such events still to come. */
  function Work(s: State): nat {
    |s.tasks| + 2 * Running(s.engines, s.ended) + |s.orphans| + (if s.endpoint == Open then 1 else 0) + (if s.store == Open then 1 else 0)
  }

  lemma {:induction false} RunningFewer(es: seq<nat>, ended: set<nat>, e: nat)
    requires Distinct(es)
    ensures Running(es, ended + {e}) == Running(es, ended) - (if e in es && e !in ended then 1 else 0)
  {
    if es != [] {
      RunningFewer(es[1..], ended, e);
      assert e in es <==> e == es[0] || e in es[1..];
    }
  }

  lemma {:induction false} RunningRemoved(es: seq<nat>, ended: set<nat>, e: nat)
    requires e in ended
    ensures Running(RemovePtr(es, e), ended) == Running(es, ended)
  {
    if es != [] && es[0] != e {
      RunningRemoved(es[1..], ended, e);
      assert RemovePtr(es, e) == [es[0]] + RemovePtr(es[1..], e);
    }
  }

  lemma {:induction false} RemovedShorter<T>(q: seq<T>, x: T)
    requires x in q
    ensures |RemovePtr(q, x)| == |q| - 1
  {
    if q[0] != x {
      RemovedShorter(q[1..], x);
    }
  }

  lemma {:induction false} CloseOrphansFewer(s: State, cs: seq<nat>, atOnce: set<nat>)
    requires Listed(s) && s.store == Open && s.deinits == 0 && Distinct(cs) && forall c :: c in cs ==> c in s.orphans
    ensures |CloseOrphans(s, cs, atOnce).orphans| <= |s.orphans|
    decreases |cs|
  {
    if cs != [] {
      RemovePtrElements(s.orphans, cs[0]);
      RemovedShorter(s.orphans, cs[0]);
      assert cs[0] !in cs[1..];
      CloseOrphansFewer(if cs[0] in atOnce then OrphanGone(s, cs[0]) else s, cs[1..], atOnce);
    }
  }

  /** Each such event leaves less to do, and strands nobody and frees nobody. */
  lemma CompletionStep(s: State, e: Event)
    requires Inv(s) && s.closing && Enabled(s, e) && Completes(e)
    ensures var n := Next(s, e);
            && Inv(n) && n.closing && Work(n) < Work(s)
            && forall x :: Stranded(n, x) <==> Stranded(s, x)
  {
    StepKeepsInv(s, e);
    var n := Next(s, e);
    CompletionWork(s, e);
    forall x ensures Stranded(n, x) <==> Stranded(s, x) {
      if Stranded(s, x) {
        StrandedStays(s, e, x);
      }
      CompletionFreesNone(s, e, x);
    }
  }

  lemma CompletionFreesNone(s: State, e: Event, x: nat)
    requires Inv(s) && s.closing && Enabled(s, e) && Completes(e)
    ensures Stranded(Next(s, e), x) ==> Stranded(s, x)
  {
    if e.EngineClosed? {
      RemovePtrElements(s.engines, e.e);
    } else if e.OrphanClosed? {
      RemovePtrElements(s.orphans, e.c);
    } else if e.RunTask? {
      var t := s.(tasks := s.tasks[1..]);
      assert s.tasks[0] in s.tasks;
      if s.tasks[0].EngineGone? {
        RemovePtrElements(s.engines, s.tasks[0].e);
      } else {
        CloseOrphansKeeps(TellAll(t), s.orphans, e.atOnce);
      }
    }
  }

  lemma CompletionWork(s: State, e: Event)
    requires Inv(s) && s.closing && Enabled(s, e) && Completes(e)
    ensures Next(s, e).closing && Work(Next(s, e)) < Work(s)
  {
    if e.EngineClosed? {
      RunningFewer(s.engines, s.ended, e.e);
      RunningRemoved(s.engines, s.ended + {e.e}, e.e);
    } else if e.OrphanClosed? {
      RemovedShorter(s.orphans, e.c);
    } else if e.RunTask? {
      var t := s.(tasks := s.tasks[1..]);
      assert s.tasks[0] in s.tasks;
      if s.tasks[0].EngineGone? {
        RunningRemoved(s.engines, s.ended, s.tasks[0].e);
      } else {
        hide Running;
        CloseTaskWork(s, t, e);
      }
    }
  }

  lemma CloseTaskWork(s: State, t: State, e: Event)
    requires Inv(s) && s.closing && e.RunTask? && s.tasks != [] && s.tasks[0] == CloseTask && t == s.(tasks := s.tasks[1..])
    ensures var n := CloseSync(t, e.atOnce, e.endpointAtOnce, e.storeAtOnce);
            n.closing && Work(n) < Work(s)
  {
    assert CloseTask in s.tasks;
    CloseOrphansKeeps(TellAll(t), s.orphans, e.atOnce);
    CloseOrphansFewer(TellAll(t), s.orphans, e.atOnce);
    hide Inv, Running, CloseOrphans;
  }

  ghost predicate Completion(ss: seq<State>, es: seq<Event>) {
    Run(ss, es) && Inv(ss[0]) && ss[0].closing && forall j {:trigger es[j]} :: 0 <= j < |es| ==> Completes(es[j])
  }

  lemma {:induction false} CompletionKeeps(ss: seq<State>, es: seq<Event>, i: nat)
    requires Completion(ss, es) && i < |ss|
    ensures Inv(ss[i]) && ss[i].closing && Work(ss[i]) + i <= Work(ss[0])
    ensures forall x :: Stranded(ss[i], x) <==> Stranded(ss[0], x)
  {
    if i > 0 {
      hide Inv, Next, Stranded, Enabled, Completes, Work;
      CompletionKeeps(ss, es, i - 1);
      assert Completes(es[i - 1]);
      CompletionStep(ss[i - 1], es[i - 1]);
    }
  }

  /** A closing app in which nothing can be completed any more. */
  ghost predicate Stuck(s: State) {
    forall e :: Completes(e) ==> !Enabled(s, e)
  }

  /** When nothing is left to complete, all that is open was created too late. */
  lemma StuckStranded(s: State)
    requires Inv(s) && s.closing && Stuck(s)
    ensures s.deinits == 1 <==> forall x :: !Stranded(s, x)
  {
    assert !Enabled(s, RunTask({}, false, false)) && !Enabled(s, EndpointClosed) && !Enabled(s, StoreClosed);
    assert s.tasks == [] && s.closeRan && s.endpoint != Open && s.store != Open;
    forall n | n in s.engines ensures Stranded(s, n) {
      assert n in s.ended ==> EngineGone(n) in s.tasks;
      assert !Enabled(s, EngineClosed(n, false));
    }
    forall c | c in s.orphans ensures Stranded(s, c) {
      assert !Enabled(s, OrphanClosed(c));
    }
    if !CouldBeClosed(s) {
      assert Stranded(s, if s.engines != [] then s.engines[0] else s.orphans[0]);
    }
  }

  /** A closing app always comes to rest, after at most `Work` events, in whatever
      order what was told to close does so; and `on_deinit` has then started if and
      only if nothing that was created after the close task ran is still listed
      without a reason of its own to end. */
  lemma EndsExactly(ss: seq<State>, es: seq<Event>)
    requires Completion(ss, es)
    ensures |es| <= Work(ss[0])
    ensures Stuck(ss[|es|]) ==> (ss[|es|].deinits == 1 <==> forall x :: !Stranded(ss[0], x))
  {
    CompletionKeeps(ss, es, |es|);
    hide Inv, Next, Stranded, Enabled, Completes, Work, Run;
    if Stuck(ss[|es|]) {
      StuckStranded(ss[|es|]);
    }
  }

  /** Such an order of events exists from every closing state. */
  lemma {:induction false} CanComeToRest(s: State) returns (ss: seq<State>, es: seq<Event>)
    requires Inv(s) && s.closing
    ensures Completion(ss, es) && ss[0] == s && Stuck(ss[|es|])
    decreases Work(s)
  {
    if Stuck(s) {
      ss, es := [s], [];
    } else {
      var e :| Completes(e) && Enabled(s, e);
      CompletionStep(s, e);
      hide Inv, Next, Stranded, Enabled, Completes, Completion, Work, Stuck;
      var rest, more := CanComeToRest(Next(s, e));
      CompletionFirst(s, e, rest, more);
      ss, es := [s] + rest, [e] + more;
      assert ss[|es|] == rest[|more|];
    }
  }

  lemma CompletionFirst(s: State, e: Event, rest: seq<State>, more: seq<Event>)
    requires Inv(s) && s.closing && Enabled(s, e) && Completes(e)
    requires Completion(rest, more) && rest[0] == Next(s, e)
    ensures Completion([s] + rest, [e] + more) && |rest| == |more| + 1
  {
    hide Inv, Next, Enabled, Completes;
    var ss, es := [s] + rest, [e] + more;
    forall j {:trigger es[j]} | 0 <= j < |es| ensures Enabled(ss[j], es[j]) && ss[j + 1] == Next(ss[j], es[j]) && Completes(es[j]) {
      if j > 0 {
        assert es[j] == more[j - 1];
      }
    }
  }
}
