/**
 Whole runs of the closing protocol: any sequence of calls from outside, each
 with everything it sets off.
 */
module ClosingRuns {
  import opened ClosingGraph
  import opened ClosingInvariant
  import opened ClosingTree
  import opened ClosingOrder
  import opened ClosingRegistration

  /** A call from outside: somebody closes the root of a living tree, a deferred
      action completes, or an outsider acknowledges subscription `k` late. */
  datatype Event<R> = CloseCalled(root: R) | ActionCompleted(res: R) | OutsiderAcked(res: R, k: nat)

  /** What the methods of `Closeable` promise about such a call. */
  ghost predicate Step<R>(g: Graph<R>, w: World<R>, v: World<R>, e: Event<R>)
    requires WellFormed(g)
  {
    && w.Keys == g.all == v.Keys && Inv(g, v)
    && match e
       case CloseCalled(x) => x in g.all && TreeAlive(g, w, x) && ClosedTree(g, w, v, x) && (Resting(g, w) ==> Once(v))
       case ActionCompleted(x) =>
         && x in g.all && Pending(w[x]) && v[x].state == Closed && Progress(w, v) && SameAlive(w, v)
         && (Calm(g, w, x) ==> Once(v))
       case OutsiderAcked(x, k) => x in g.all && Served(w, v, x, k) && (Once(w) ==> Once(v))
  }

  ghost predicate Run<R>(g: Graph<R>, ws: seq<World<R>>, es: seq<Event<R>>)
    requires WellFormed(g)
  {
    |ws| == |es| + 1 && forall i {:trigger es[i]} :: 0 <= i < |es| ==> Step(g, ws[i], ws[i + 1], es[i])
  }

  /** The deliveries made by a resource that held the subscriptions of `r` when the
      run began: none before it closed; then 'closed' went to every subscriber
      once, in order, and 'all done' to every subscriber once, but not before the
      last acknowledgement of 'closed'. */
  ghost predicate Delivered<R>(r: Res<R>, s: Res<R>) {
    if s.state != Closed then
      s.onClosed == r.onClosed && s.onAllDone == r.onAllDone && s.notified == [] && s.allDoneLog == [] && s.fired == 0
    else
      && s.notified == r.onClosed
      && (forall it :: it in s.onClosed ==> it in r.onClosed && Owes(it))
      && s.fired == (if s.onClosed == [] then 1 else 0)
      && s.allDoneLog == (if s.onClosed == [] then r.onAllDone else [])
      && s.onAllDone == (if s.onClosed == [] then [] else r.onAllDone)
  }

  /** Everything that holds between two calls of a run that began in `a`. */
  ghost predicate Between<R>(g: Graph<R>, a: World<R>, w: World<R>)
    requires WellFormed(g)
  {
    && a.Keys == g.all == w.Keys && Inv(g, w) && Quiet(w)
    && forall x {:trigger Delivered(a[x], w[x])} :: x in g.all ==> Delivered(a[x], w[x])
  }

  lemma AdvancedDelivers<R>(r: Res<R>, s: Res<R>, t: Res<R>)
    requires Delivered(r, s) && Advanced(s, t) && AllDoneOnce(t)
    ensures Delivered(r, t)
  {
  }

  lemma DoneOnce<R>(g: Graph<R>, w: World<R>, x: R)
    requires Keyed(g) && x in g.all && Inv(g, w)
    ensures AllDoneOnce(w[x])
  {
    assert Sound(g, w, x);
  }

  lemma ProgressBetween<R>(g: Graph<R>, a: World<R>, w: World<R>, v: World<R>)
    requires WellFormed(g) && Between(g, a, w) && Inv(g, v) && Progress(w, v)
    ensures Between(g, a, v)
  {
    hide Inv, Owned, Advanced, Delivered, AllDoneOnce;
    WellFormedKeyed(g);
    QuietStays(w, v);
    forall x | x in g.all ensures Delivered(a[x], v[x]) {
      DoneOnce(g, v, x);
      AdvancedDelivers(a[x], w[x], v[x]);
    }
  }

  lemma ServedDelivers<R>(g: Graph<R>, a: World<R>, w: World<R>, v: World<R>, c: R, k: nat)
    requires a.Keys == w.Keys && Served(w, v, c, k) && Delivered(a[c], w[c]) && AllDoneOnce(v[c])
    ensures Delivered(a[c], v[c])
  {
    assert forall it :: it in v[c].onClosed ==> it in w[c].onClosed;
  }

  lemma ServedBetween<R>(g: Graph<R>, a: World<R>, w: World<R>, v: World<R>, c: R, k: nat)
    requires WellFormed(g) && Between(g, a, w) && Inv(g, v) && Served(w, v, c, k)
    ensures Between(g, a, v)
  {
    hide Inv, Owned, Delivered, AllDoneOnce, Crossed, Quiet, WellFormed;
    WellFormedKeyed(g);
    ServedQuiet(w, v, c, k);
    forall x | x in g.all ensures Delivered(a[x], v[x]) {
      DoneOnce(g, v, x);
      if x == c {
        ServedDelivers(g, a, w, v, c, k);
      } else {
        AdvancedDelivers(a[x], w[x], v[x]);
      }
    }
  }

  lemma StepBetween<R>(g: Graph<R>, a: World<R>, w: World<R>, v: World<R>, e: Event<R>)
    requires WellFormed(g) && Between(g, a, w) && Step(g, w, v, e)
    ensures Between(g, a, v)
  {
    hide Inv, Between, Owned, Served, Progress;
    WellFormedKeyed(g);
    match e
    case OutsiderAcked(x, k) => ServedBetween(g, a, w, v, x, k);
    case CloseCalled(_) => ProgressBetween(g, a, w, v);
    case ActionCompleted(_) => ProgressBetween(g, a, w, v);
  }

  /** In a run that begins before anything closes, the invariants hold between any
      two calls, and every announcement is delivered exactly once. */
  lemma {:induction false} RunKeepsAll<R>(g: Graph<R>, ws: seq<World<R>>, es: seq<Event<R>>, i: nat)
    requires WellFormed(g) && Run(g, ws, es) && i < |ws|
    requires ws[0].Keys == g.all && Inv(g, ws[0]) && forall x :: x in g.all ==> ws[0][x].state == Alive
    ensures Between(g, ws[0], ws[i])
  {
    hide Inv, Owned, Between, Step, WellFormed;
    WellFormedKeyed(g);
    if i == 0 {
      BetweenAtStart(g, ws[0]);
    } else {
      RunKeepsAll(g, ws, es, i - 1);
      assert Step(g, ws[i - 1], ws[i], es[i - 1]);
      StepBetween(g, ws[0], ws[i - 1], ws[i], es[i - 1]);
    }
  }

  /** An owner that registers with `k` is told last, after all that had subscribed before,
      and none of these is forgotten. */
  lemma KidTellsAll<R>(g: Graph<R>, h: Graph<R>, w: World<R>, x: R, k: R, allDone: Item<R>,
                       ws: seq<World<R>>, es: seq<Event<R>>, i: nat)
    requires WellFormed(g) && WellFormed(h) && AddsKid(g, h, x, k) && Inv(g, w) && allDone.who == Resource(x)
    requires forall y :: y in g.all ==> w[y].state == Alive
    requires x != k && Run(h, ws, es) && i < |ws| && ws[0] == KidRegistered(w, x, k, allDone)
    ensures k in ws[i] && (ws[i][k].state == Closed ==>
              && ws[i][k].notified == w[k].onClosed + [Item(Resource(x), OwnerDefault, 0)]
              && (ws[i][k].onClosed == [] ==> ws[i][k].allDoneLog == w[k].onAllDone + [allDone]))
  {
    hide Owned, WellFormed, Run, Inv;
    WellFormedKeyed(g);
    AliveWaits(g, w, x);
    KidRegisteredKeepsInv(g, h, w, x, k, allDone);
    KidFields(w, x, k, allDone);
    hide Keyed, MayWait, KidRegistered;
    RunDelivers(h, ws, es, i, k);
  }

  /** The same for a dependency, whose subscription carries the data it was given. */
  lemma DependentTellsAll<R>(g: Graph<R>, h: Graph<R>, w: World<R>, x: R, d: R, data: int,
                             ws: seq<World<R>>, es: seq<Event<R>>, i: nat)
    requires WellFormed(g) && WellFormed(h) && AddsDependent(g, h, x, d) && Inv(g, w)
    requires forall y :: y in g.all ==> w[y].state == Alive
    requires x != d && Run(h, ws, es) && i < |ws| && ws[0] == DependentRegistered(w, x, d, data)
    ensures d in ws[i] && (ws[i][d].state == Closed ==>
              && ws[i][d].notified == w[d].onClosed + [Item(Resource(x), DependencyDefault, data)]
              && (ws[i][d].onClosed == [] ==> ws[i][d].allDoneLog == w[d].onAllDone))
  {
    hide Owned, WellFormed, Run, Inv;
    WellFormedKeyed(g);
    AliveWaits(g, w, x);
    DependentRegisteredKeepsInv(g, h, w, x, d, data);
    DependentFields(w, x, d, data);
    hide Keyed, MayWait, DependentRegistered;
    RunDelivers(h, ws, es, i, d);
  }

  lemma KidFields<R>(w: World<R>, x: R, k: R, allDone: Item<R>)
    requires x in w && k in w && x != k
    ensures var v := KidRegistered(w, x, k, allDone);
            && v.Keys == w.Keys && (forall y :: y in w ==> v[y].state == w[y].state)
            && v[k].onClosed == w[k].onClosed + [Item(Resource(x), OwnerDefault, 0)] && v[k].onAllDone == w[k].onAllDone + [allDone]
  {
  }

  lemma DependentFields<R>(w: World<R>, x: R, d: R, data: int)
    requires x in w && d in w && x != d
    ensures var v := DependentRegistered(w, x, d, data);
            && v.Keys == w.Keys && (forall y :: y in w ==> v[y].state == w[y].state)
            && v[d].onClosed == w[d].onClosed + [Item(Resource(x), DependencyDefault, data)] && v[d].onAllDone == w[d].onAllDone
  {
  }

  lemma AliveWaits<R>(g: Graph<R>, w: World<R>, x: R)
    requires Keyed(g) && x in g.all && Inv(g, w) && w[x].state == Alive
    ensures w.Keys == g.all && MayWait(w[x])
  {
    hide Sound;
    assert Settled(w, x);
  }

  lemma RunDelivers<R>(g: Graph<R>, ws: seq<World<R>>, es: seq<Event<R>>, i: nat, x: R)
    requires WellFormed(g) && Run(g, ws, es) && i < |ws| && x in g.all
    requires ws[0].Keys == g.all && Inv(g, ws[0]) && forall y :: y in g.all ==> ws[0][y].state == Alive
    ensures x in ws[i] && Delivered(ws[0][x], ws[i][x])
  {
    hide Owned, Inv, Quiet, Run, Delivered;
    RunKeepsAll(g, ws, es, i);
  }

  lemma BetweenAtStart<R>(g: Graph<R>, a: World<R>)
    requires WellFormed(g) && a.Keys == g.all && Inv(g, a) && forall x :: x in g.all ==> a[x].state == Alive
    ensures Between(g, a, a)
  {
    forall x | x in g.all ensures Delivered(a[x], a[x]) {
      assert Sound(g, a, x);
    }
  }

  function Stage(st: State): nat {
    match st case Alive => 0 case Closing => 1 case Closed => 2
  }

  lemma StepForward<R>(g: Graph<R>, w: World<R>, v: World<R>, e: Event<R>, x: R)
    requires WellFormed(g) && Step(g, w, v, e) && x in g.all
    ensures w.Keys == v.Keys == g.all && Stage(w[x].state) <= Stage(v[x].state) && Inv(g, v)
  {
    hide Owned, Inv;
    assert !(e.OutsiderAcked? && e.res == x) ==> Advanced(w[x], v[x]);
  }

  lemma ImmediateOnce<R>(g: Graph<R>, w: World<R>, x: R)
    requires Keyed(g) && x in g.all && Inv(g, w)
    ensures x in w && (w[x].action == Immediate ==> w[x].runs == if w[x].state == Closed then 1 else 0)
  {
    assert Settled(w, x);
  }

  /** States only move forward, and the own action of an `Immediate` resource runs
      exactly once, when the resource becomes closed. */
  lemma {:induction false} RunMovesForward<R>(g: Graph<R>, ws: seq<World<R>>, es: seq<Event<R>>, i: nat, j: nat, x: R)
    requires WellFormed(g) && Run(g, ws, es) && i <= j < |ws| && x in g.all
    requires ws[0].Keys == g.all && Inv(g, ws[0])
    ensures x in ws[i] && x in ws[j] && Stage(ws[i][x].state) <= Stage(ws[j][x].state)
    ensures ws[j][x].action == Immediate ==> ws[j][x].runs == if ws[j][x].state == Closed then 1 else 0
    decreases j
  {
    hide Owned, Keyed, Inv, Settled, Step, WellFormed, Stage;
    WellFormedKeyed(g);
    if j > 0 {
      assert Step(g, ws[j - 1], ws[j], es[j - 1]);
      StepForward(g, ws[j - 1], ws[j], es[j - 1], x);
      if i < j {
        RunMovesForward(g, ws, es, i, j - 1, x);
      }
    }
    ImmediateOnce(g, ws[j], x);
  }

  // ----- What one call achieves -----

  /** Closing the root of a living tree closes all of the tree before the call
      returns, if every action in it is immediate and everything that depends on it
      is part of it. */
  lemma CloseClosesTree<R>(g: Graph<R>, w: World<R>, v: World<R>, x: R)
    requires WellFormed(g) && x in g.all && w.Keys == g.all && Inv(g, w) && Quiet(w)
    requires DependentsInside(g, x) && ClosedTree(g, w, v, x)
    requires forall r :: r in g.all && InTree(g, r, x) ==> w[r].action == Immediate
    ensures forall r :: r in g.all && InTree(g, r, x) ==> v[r].state == Closed && v[r].runs == 1
  {
    hide Owned, DependentsInside, Quiet, Sound, InTree;
    QuietStays(w, v);
    TreeClosesWhole(g, v, x);
    forall r | r in g.all && InTree(g, r, x) ensures !Pending(v[r]) && (v[r].state == Closed ==> v[r].runs == 1) {
      assert Advanced(w[r], v[r]) && Settled(v, r);
    }
  }

  /** A pending action may complete: nothing its resource waited for is left. */
  lemma PendingMayComplete<R>(g: Graph<R>, w: World<R>, x: R)
    requires WellFormed(g) && x in g.all && Inv(g, w) && Quiet(w) && Pending(w[x])
    ensures InvActed(g, w, x)
  {
    hide Sound, Owned;
    WellFormedKeyed(g);
    assert Settled(w, x);
    if w[x].underlying != [] {
      QuietBlockers(g, w, x, w[x].underlying[0]);
    }
    if w[x].dependents != [] {
      QuietBlockers(g, w, x, w[x].dependents[0]);
    }
  }

  /** A deferred action that is first started in the world `w`, and its resource in
      a later quiet world: it was started once exactly if nothing was listed at that
      moment; otherwise once more for every blocker that was crossed off afterwards. */
  lemma StartedOnceExactly<R>(g: Graph<R>, w: World<R>, v: World<R>, x: R)
    requires WellFormed(g) && x in g.all && x in w && w[x].action == Deferred && w[x].runs == 0
    requires Inv(g, v) && Quiet(v) && Advanced(StartRes(w[x]), v[x])
    ensures v[x].runs == 1 <==> w[x].underlying == [] && w[x].dependents == []
    ensures v[x].runs == 1 + |w[x].underlying| + |w[x].dependents|
  {
    hide Sound, Owned;
    WellFormedKeyed(g);
    RunsOfPending(g, v, x);
    assert v[x].state != Alive by {
      assert Settled(v, x);
    }
  }

  /** Between calls an action that was started has been started once and once more for its backlog. */
  lemma RunsOfPending<R>(g: Graph<R>, v: World<R>, x: R)
    requires WellFormed(g) && x in g.all && Inv(g, v) && Quiet(v) && v[x].action == Deferred && v[x].runs > 0
    ensures v[x].runs == 1 + v[x].backlog
  {
    hide Sound, Owned;
    WellFormedKeyed(g);
    assert Settled(v, x);
    if v[x].state == Closing {
      PendingMayComplete(g, v, x);
    }
  }

  // ----- Registration in order -----

  lemma ServedInOrder<R>(g: Graph<R>, w: World<R>, v: World<R>, c: R, k: nat)
    requires WellFormed(g) && w.Keys == g.all && InOrder(g, w) && Inv(g, v) && Served(w, v, c, k)
    ensures InOrder(g, v)
  {
    hide Inv, Owned, Crossed, Advanced, Awaits;
    forall y | y in v ensures QueueInOrder(g, v[y].onClosed) {
      assert QueueInOrder(g, w[y].onClosed);
      if y != c {
        assert Advanced(w[y], v[y]);
        AdvancedInOrder(g, w[y], v, y);
      } else {
        var q, r := w[c].onClosed, v[c].onClosed;
        assert forall i :: 0 <= i < |r| ==> r[i] == q[if i < k then i else i + 1];
      }
    }
  }

  lemma StepRests<R>(g: Graph<R>, w: World<R>, v: World<R>, e: Event<R>)
    requires WellFormed(g) && Resting(g, w) && Step(g, w, v, e)
    ensures Resting(g, v)
  {
    hide Inv, Owned, InOrder, Once, Progress, Served, Calm, Quiet;
    WellFormedKeyed(g);
    match e
    case CloseCalled(x) => ProgressRests(g, w, v);
    case ActionCompleted(x) =>
      QuietCalm(g, w, x);
      ProgressRests(g, w, v);
    case OutsiderAcked(x, k) =>
      ServedInOrder(g, w, v, x, k);
      ServedQuiet(w, v, x, k);
  }

  lemma ServedQuiet<R>(w: World<R>, v: World<R>, c: R, k: nat)
    requires Quiet(w) && Served(w, v, c, k)
    ensures Quiet(v)
  {
    forall y | y in v && v[y].state == Closed ensures forall it :: it in v[y].onClosed ==> Owes(it) {
      if y != c {
        assert Advanced(w[y], v[y]);
      }
    }
  }

  /** If every queue of 'closed' was filled in order, so that a resource that waits
      for another subscriber comes before it, every deferred action is started once:
      whatever is closed, completed or acknowledged, and when. */
  lemma {:induction false} RunStartsOnce<R>(g: Graph<R>, ws: seq<World<R>>, es: seq<Event<R>>, i: nat)
    requires WellFormed(g) && Run(g, ws, es) && i < |ws|
    requires ws[0].Keys == g.all && Inv(g, ws[0]) && InOrder(g, ws[0]) && forall x :: x in g.all ==> ws[0][x].state == Alive
    ensures Resting(g, ws[i])
    ensures forall x :: x in g.all ==>
              ws[i][x].runs <= 1 && (ws[i][x].state == Closed ==> ws[i][x].runs == 1)
  {
    hide Inv, Owned, Step, WellFormed, InOrder, Resting, Quiet;
    WellFormedKeyed(g);
    if i == 0 {
      AliveRests(g, ws[0]);
    } else {
      RunStartsOnce(g, ws, es, i - 1);
      assert Step(g, ws[i - 1], ws[i], es[i - 1]);
      StepRests(g, ws[i - 1], ws[i], es[i - 1]);
    }
    RestingRuns(g, ws[i]);
  }

  lemma AliveRests<R>(g: Graph<R>, a: World<R>)
    requires WellFormed(g) && a.Keys == g.all && Inv(g, a) && InOrder(g, a) && forall x :: x in g.all ==> a[x].state == Alive
    ensures Resting(g, a)
  {
    hide InOrder, Sound;
    forall x | x in a ensures a[x].runs == 0 {
      assert Settled(a, x);
    }
  }

  lemma RestingRuns<R>(g: Graph<R>, w: World<R>)
    requires WellFormed(g) && Resting(g, w)
    ensures w.Keys == g.all && forall x :: x in g.all ==> w[x].runs <= 1 && (w[x].state == Closed ==> w[x].runs == 1)
  {
    hide InOrder, Sound, Owned, Quiet;
    forall x | x in g.all ensures w[x].runs <= 1 && (w[x].state == Closed ==> w[x].runs == 1) {
      assert Settled(w, x);
      if w[x].action == Deferred && w[x].runs > 0 {
        RunsOfPending(g, w, x);
      }
    }
  }
}
