/**
 The order of registration under which every deferred action is started once: in
 each queue of 'closed', a resource that waits for another subscriber comes first.
 */
module ClosingOrder {
  import opened ClosingGraph
  import opened ClosingInvariant
  import opened ClosingTree

  ghost predicate QueueInOrder<R>(g: Graph<R>, q: seq<Item<R>>)
    requires WellFormed(g)
  {
    forall i, j :: 0 <= i < j < |q| && q[i].who.Resource? && q[j].who.Resource? && q[j].who.res in g.all ==>
      !Awaits(g, q[j].who.res, q[i].who.res)
  }

  ghost predicate InOrder<R>(g: Graph<R>, w: World<R>)
    requires WellFormed(g)
  {
    forall c {:trigger QueueInOrder(g, w[c].onClosed)} :: c in w ==> QueueInOrder(g, w[c].onClosed)
  }

  /** No deferred action found a blocker still listed at its first start. */
  ghost predicate Once<R>(w: World<R>) {
    forall x :: x in w && w[x].action == Deferred && w[x].runs > 0 ==> w[x].backlog == 0
  }

  /** Does `x` list `y` though `y` is closed? */
  ghost predicate Stale<R>(w: World<R>, x: R, y: R) {
    x in w && y in w && (y in w[x].underlying || y in w[x].dependents) && w[y].state == Closed
  }

  /** Nothing that waits for `s` has anything closed left to cross off. */
  ghost predicate Calm<R>(g: Graph<R>, w: World<R>, s: R)
    requires WellFormed(g)
  {
    && InOrder(g, w) && Once(w)
    && (forall x, y {:trigger Stale(w, x, y)} :: x in g.all && y in g.all && Awaits(g, x, s) ==> !Stale(w, x, y))
  }

  /** The same, except that `s` itself is about to cross `c` off. */
  ghost predicate CalmBut<R>(g: Graph<R>, w: World<R>, s: R, c: R)
    requires WellFormed(g)
  {
    && InOrder(g, w) && Once(w)
    && (forall x, y {:trigger Stale(w, x, y)} :: x in g.all && y in g.all && Awaits(g, x, s) && Stale(w, x, y) ==> x == s && y == c)
  }

  /** `c` may call its subscriber `it`. */
  ghost predicate CalmFor<R>(g: Graph<R>, w: World<R>, it: Item<R>, c: R)
    requires WellFormed(g)
  {
    InOrder(g, w) && Once(w) && (it.who.Resource? ==> CalmBut(g, w, it.who.res, c))
  }

  lemma {:induction false} AwaitsFurther<R>(g: Graph<R>, x: R, t: R, s: R)
    requires WellFormed(g) && x in g.all && t in g.all && Awaits(g, x, t) && (s in g.kids[t] || s in g.deps[t])
    ensures Awaits(g, x, s)
    decreases g.rank[x]
  {
    if x == t {
      BlockerRank(g, t, s);
      assert Awaits(g, s, s);
    } else if k :| k in g.kids[x] && Awaits(g, k, t) {
      BlockerRank(g, x, k);
      AwaitsFurther(g, k, t, s);
    } else {
      var d :| d in g.deps[x] && Awaits(g, d, t);
      BlockerRank(g, x, d);
      AwaitsFurther(g, d, t, s);
    }
  }

  /** Whoever closed and has called all its subscribers is listed nowhere. */
  lemma ClosedUnlisted<R>(g: Graph<R>, r: Res<R>, w: World<R>, x: R, y: R)
    requires Keyed(g) && w.Keys == g.all && x in g.all && y in g.all && Sound(g, w, x)
    requires Advanced(r, w[y]) && r.state != Closed && w[y].state == Closed
    ensures y !in w[x].underlying && y !in w[x].dependents
  {
    UnackedAddressed(r.onClosed, x, OwnerDefault);
    UnackedAddressed(r.onClosed, x, DependencyDefault);
  }

  lemma UnackedAddressed<R>(q: seq<Item<R>>, x: R, cb: Callback)
    ensures Addressed(Unacked(q), x, cb) ==> cb.External?
  {
    var u := Unacked(q);
    forall i | 0 <= i < |u| ensures u[i].cb.External? {
      assert u[i] in u;
    }
  }

  lemma StaleBefore<R>(g: Graph<R>, w: World<R>, v: World<R>, x: R, y: R)
    requires Keyed(g) && w.Keys == g.all && x in g.all && Inv(g, v) && Progress(w, v)
    requires Stale(v, x, y)
    ensures Stale(w, x, y)
  {
    assert Sound(g, v, x) && Advanced(w[y], v[y]);
    if w[y].state != Closed {
      ClosedUnlisted(g, w[y], v, x, y);
    }
    assert ListsShrink(w, v, x, {});
  }

  /** A queue that kept only late acknowledgements of outsiders is in order. */
  lemma OutsidersInOrder<R>(g: Graph<R>, y: R, q: seq<Item<R>>)
    requires WellFormed(g) && Keyed(g) && forall it :: it in q ==> Owes(it) && GoodItem(g, y, it)
    ensures QueueInOrder(g, q)
  {
    hide Owned, Keyed, Awaits;
    forall i | 0 <= i < |q| ensures q[i].who.Outside? {
      assert q[i] in q;
    }
  }

  lemma AdvancedInOrder<R>(g: Graph<R>, r: Res<R>, v: World<R>, y: R)
    requires WellFormed(g) && v.Keys == g.all && y in g.all && Inv(g, v) && Advanced(r, v[y]) && QueueInOrder(g, r.onClosed)
    ensures QueueInOrder(g, v[y].onClosed)
  {
    hide QueueInOrder, Owned;
    WellFormedKeyed(g);
    if r.state != Closed && v[y].state == Closed {
      assert Sound(g, v, y);
      forall it | it in v[y].onClosed ensures Owes(it) && GoodItem(g, y, it) {
        assert it in Unacked(r.onClosed);
      }
      OutsidersInOrder(g, y, v[y].onClosed);
    }
  }

  lemma ProgressInOrder<R>(g: Graph<R>, w: World<R>, v: World<R>)
    requires WellFormed(g) && w.Keys == g.all && InOrder(g, w) && Inv(g, v) && Progress(w, v)
    ensures InOrder(g, v)
  {
    hide Inv, QueueInOrder, Owned, Advanced;
    forall y | y in v ensures QueueInOrder(g, v[y].onClosed) {
      assert Advanced(w[y], v[y]);
      AdvancedInOrder(g, w[y], v, y);
    }
  }

  lemma ProgressCalm<R>(g: Graph<R>, w: World<R>, v: World<R>, s: R)
    requires WellFormed(g) && w.Keys == g.all && Calm(g, w, s) && Inv(g, v) && Progress(w, v) && Once(v)
    ensures Calm(g, v, s)
  {
    hide Inv, Progress, Stale, InOrder, Owned;
    WellFormedKeyed(g);
    ProgressInOrder(g, w, v);
    forall x, y | x in g.all && y in g.all && Awaits(g, x, s) ensures !Stale(v, x, y) {
      if Stale(v, x, y) {
        StaleBefore(g, w, v, x, y);
      }
    }
  }

  /** Between calls nothing is stale. */
  lemma QuietCalm<R>(g: Graph<R>, w: World<R>, s: R)
    requires WellFormed(g) && w.Keys == g.all && Inv(g, w) && Quiet(w) && InOrder(g, w) && Once(w)
    ensures Calm(g, w, s)
  {
    hide Inv, Quiet, InOrder, Owned, Once;
    WellFormedKeyed(g);
    forall x, y | x in g.all && y in g.all && Awaits(g, x, s) ensures !Stale(w, x, y) {
      if Stale(w, x, y) {
        QuietBlockers(g, w, x, y);
      }
    }
  }

  /** A resource that is ready while nothing is stale has nothing left to list. */
  lemma CalmReady<R>(g: Graph<R>, w: World<R>, s: R)
    requires WellFormed(g) && s in g.all && w.Keys == g.all && InvReady(g, w, s) && Calm(g, w, s)
    ensures w[s].underlying == [] && w[s].dependents == []
    ensures Once(w[s := StartRes(w[s])]) && Calm(g, w[s := StartRes(w[s])], s)
  {
    hide Base, Settled, Owned, InOrder;
    assert Awaits(g, s, s);
    if w[s].underlying != [] {
      ListedIsStale(w, s, w[s].underlying[0]);
    }
    if w[s].dependents != [] {
      ListedIsStale(w, s, w[s].dependents[0]);
    }
    var v := w[s := StartRes(w[s])];
    assert InOrder(g, v) by {
      StartInOrder(g, w, s);
    }
    forall x, y | x in g.all && y in g.all && Awaits(g, x, s) ensures !Stale(v, x, y) {
      assert !Stale(w, x, y);
    }
  }

  lemma ListedIsStale<R>(w: World<R>, s: R, y: R)
    requires s in w && BlockersClosed(w, s) && (y in w[s].underlying || y in w[s].dependents)
    ensures Stale(w, s, y)
  {
  }

  lemma StartInOrder<R>(g: Graph<R>, w: World<R>, s: R)
    requires WellFormed(g) && s in w && InOrder(g, w)
    ensures InOrder(g, w[s := StartRes(w[s])])
  {
    hide QueueInOrder, Owned;
    var v := w[s := StartRes(w[s])];
    forall c | c in v ensures QueueInOrder(g, v[c].onClosed) {
      assert QueueInOrder(g, w[c].onClosed);
    }
  }

  // ----- The announcing loop -----

  /** What is left of a queue once its first `i` subscribers were called. */
  lemma RestInOrder<R>(g: Graph<R>, q: seq<Item<R>>, i: nat, x: R)
    requires WellFormed(g) && Keyed(g) && QueueInOrder(g, q) && i <= |q| && forall it :: it in q ==> GoodItem(g, x, it)
    ensures QueueInOrder(g, Unacked(q[..i]) + q[i..])
  {
    hide Owned, Keyed, Awaits;
    var u, r := Unacked(q[..i]), Unacked(q[..i]) + q[i..];
    forall k | 0 <= k < |u| ensures u[k].who.Outside? {
      assert u[k] in u && u[k] in q[..i];
      assert GoodItem(g, x, u[k]);
    }
    forall k, l | 0 <= k < l < |r| && r[k].who.Resource? && r[l].who.Resource? && r[l].who.res in g.all
      ensures !Awaits(g, r[l].who.res, r[k].who.res)
    {
      assert k >= |u| && r[k] == q[i + k - |u|] && r[l] == q[i + l - |u|];
    }
  }

  lemma AnnouncingInOrder<R>(g: Graph<R>, a: World<R>, w: World<R>, x: R, i: nat)
    requires WellFormed(g) && x in g.all && a.Keys == g.all && Keyed(g) && Base(g, a) && Announcing(g, a, w, x, i) && InOrder(g, a)
    ensures InOrder(g, w)
  {
    hide Inv, QueueInOrder, Owned, Advanced;
    assert Sound(g, a, x);
    RestInOrder(g, a[x].onClosed, i, x);
    forall y | y in w ensures QueueInOrder(g, w[y].onClosed) {
      if y != x {
        assert Advanced(a[y], w[y]);
        AdvancedInOrder(g, a[y], w, y);
      }
    }
  }

  /** Whoever still lists `x` has not been called yet. */
  lemma ListersAhead<R>(g: Graph<R>, a: World<R>, w: World<R>, x: R, i: nat, t: R) returns (j: nat)
    requires Keyed(g) && x in g.all && a.Keys == g.all == w.Keys && t in g.all && Sound(g, w, t)
    requires Announced(a[x], w[x], i) && (x in w[t].underlying || x in w[t].dependents)
    ensures i <= j < |a[x].onClosed| && a[x].onClosed[j].who == Resource(t)
  {
    var q := a[x].onClosed;
    var u, r := Unacked(q[..i]), w[x].onClosed;
    var cb := if x in w[t].underlying then OwnerDefault else DependencyDefault;
    assert Addressed(r, t, cb);
    forall m | 0 <= m < |u| ensures r[m].cb.External? {
      assert r[m] == u[m] && u[m] in u;
    }
    var k :| 0 <= k < |r| && r[k].who == Resource(t) && r[k].cb == cb;
    assert k >= |u|;
    j := i + k - |u|;
    assert r[k] == q[j];
  }

  /** The next subscriber may be called: of those that wait for it none lists `x`, for
      they came before it, and nothing else that is closed is listed by them. */
  lemma AnnounceCalm<R>(g: Graph<R>, a: World<R>, w: World<R>, x: R, i: nat)
    requires WellFormed(g) && x in g.all && a.Keys == g.all && Keyed(g) && Base(g, a) && Announcing(g, a, w, x, i)
    requires i < |a[x].onClosed| && Calm(g, a, x) && Once(w)
    ensures CalmFor(g, w, a[x].onClosed[i], x)
  {
    hide Inv, Owned, InOrder, Stale, Once;
    AnnouncingInOrder(g, a, w, x, i);
    var it := a[x].onClosed[i];
    if it.who.Resource? {
      forall t, y | t in g.all && y in g.all && Awaits(g, t, it.who.res) && Stale(w, t, y) ensures t == it.who.res && y == x {
        NextCalm(g, a, w, x, i, t, y);
      }
    }
  }

  lemma NextCalm<R>(g: Graph<R>, a: World<R>, w: World<R>, x: R, i: nat, t: R, y: R)
    requires WellFormed(g) && x in g.all && a.Keys == g.all && Keyed(g) && Base(g, a) && Announcing(g, a, w, x, i)
    requires i < |a[x].onClosed| && a[x].onClosed[i].who.Resource? && Calm(g, a, x)
    requires t in g.all && y in g.all && Awaits(g, t, a[x].onClosed[i].who.res) && Stale(w, t, y)
    ensures t == a[x].onClosed[i].who.res && y == x
  {
    hide Owned, Advanced, Awaits, ListsShrink;
    var it := a[x].onClosed[i];
    assert Sound(g, a, x) && GoodItem(g, x, it) && Sound(g, w, t);
    AwaitsFurther(g, t, it.who.res, x);
    if y == x {
      var j := ListersAhead(g, a, w, x, i, t);
      assert QueueInOrder(g, a[x].onClosed);
    } else {
      assert Advanced(a[y], w[y]) && ListsShrink(a, w, t, {});
      OtherStale(g, a, w, t, y);
    }
  }

  lemma OtherStale<R>(g: Graph<R>, a: World<R>, w: World<R>, t: R, y: R)
    requires Keyed(g) && a.Keys == g.all == w.Keys && t in g.all && y in g.all && Sound(g, w, t)
    requires Advanced(a[y], w[y]) && ListsShrink(a, w, t, {}) && Stale(w, t, y)
    ensures Stale(a, t, y)
  {
    hide Sound;
    if a[y].state != Closed {
      ClosedUnlisted(g, a[y], w, t, y);
    }
  }

  // ----- Crossing off and acknowledging -----

  /** Once `t` has crossed `c` off, nothing that waits for `t` is stale. */
  lemma CrossCalm<R>(g: Graph<R>, w: World<R>, v: World<R>, t: R, c: R)
    requires WellFormed(g) && w.Keys == g.all == v.Keys && t in g.all && CalmBut(g, w, t, c)
    requires v == w[t := w[t].(underlying := v[t].underlying, dependents := v[t].dependents)]
    requires c !in v[t].underlying && c !in v[t].dependents && ListsShrink(w, v, t, {c})
    ensures Calm(g, v, t)
  {
    hide Owned, QueueInOrder, Awaits;
    assert InOrder(g, v) by {
      forall y | y in v ensures QueueInOrder(g, v[y].onClosed) {
        assert QueueInOrder(g, w[y].onClosed);
      }
    }
    forall x, y | x in g.all && y in g.all && Awaits(g, x, t) ensures !Stale(v, x, y) {
      assert Stale(v, x, y) ==> Stale(w, x, y);
    }
  }

  lemma AckOnce<R>(w: World<R>, c: R, who: Who<R>, data: int)
    requires c in w
    ensures Once(w) ==> Once(w[c := AckRes(w[c], who, data)])
  {
  }

  /** What an acknowledgement keeps, and that it serves exactly one subscription. */
  lemma Acknowledged<R>(g: Graph<R>, w: World<R>, c: R, k: nat, who: Who<R>, data: int)
    requires WellFormed(g) && Keyed(g) && c in g.all && Inv(g, w) && c in w && w[c].state == Closed
    requires k < |w[c].onClosed| && w[c].onClosed[k].who == who && w[c].onClosed[k].data == data
    requires who.Resource? ==> who.res in g.all && who.res in w && c !in w[who.res].underlying && c !in w[who.res].dependents
    ensures var v := w[c := AckRes(w[c], who, data)];
            Inv(g, v) && Served(w, v, c, k) && (Once(w) ==> Once(v))
    ensures Matches(w[c].onClosed[k], who, data)
  {
    hide Inv, Served, Owned, RemoveItem, AckRes, Once, WellFormed;
    var q := w[c].onClosed;
    assert q == q[..k] + [q[k]] + q[k + 1..];
    AckKeepsInv(g, w, c, q[..k], q[k], q[k + 1..]);
    AckServes(w, c, k);
    AckOnce(w, c, who, data);
  }

  /** An owner crosses a closed child off; nothing else becomes stale by that. */
  lemma OwnerCrosses<R>(g: Graph<R>, w: World<R>, o: R, c: R)
    requires WellFormed(g) && Keyed(g) && o in g.all && c in g.all && Inv(g, w) && w.Keys == g.all
    requires w[c].state == Closed && c in w[o].underlying
    ensures var v := w[o := w[o].(underlying := RemovePtr(w[o].underlying, c))];
            && InvBut(g, v, o) && ListsShrink(w, v, o, {c}) && o != c
            && c !in v[o].underlying && c !in v[o].dependents
            && InState(v, Alive) == InState(w, Alive) && InState(v, Closing) == InState(w, Closing)
            && (CalmBut(g, w, o, c) ==> Calm(g, v, o))
  {
    hide Inv, InvBut, Owned, Keyed, WellFormed, InState, ListsShrink, Calm, CalmBut, RemovePtr;
    KidUnlinked(g, w, o, c);
    if CalmBut(g, w, o, c) {
      CrossCalm(g, w, w[o := w[o].(underlying := RemovePtr(w[o].underlying, c))], o, c);
    }
  }

  lemma NotifyCalm<R>(g: Graph<R>, w: World<R>, x: R, log: seq<Item<R>>, it: Item<R>)
    requires WellFormed(g) && x in w && CalmFor(g, w, it, x)
    ensures CalmFor(g, w[x := w[x].(notified := log)], it, x)
  {
    hide Owned, QueueInOrder, Awaits;
    var v := w[x := w[x].(notified := log)];
    assert InOrder(g, v) by {
      forall y | y in v ensures QueueInOrder(g, v[y].onClosed) {
        assert QueueInOrder(g, w[y].onClosed);
      }
    }
    if it.who.Resource? {
      forall t, y | t in g.all && y in g.all && Awaits(g, t, it.who.res) && Stale(v, t, y) ensures t == it.who.res && y == x {
        assert Stale(w, t, y);
      }
    }
  }

  lemma CalmClose<R>(g: Graph<R>, a: World<R>, x: R)
    requires WellFormed(g) && x in a && Calm(g, a, x)
    ensures Once(a[x := CloseRes(a[x])])
  {
    CloseOnce(a, x);
  }

  /** A resource closes and begins to announce it. */
  lemma AnnounceBegins<R>(g: Graph<R>, a: World<R>, x: R)
    requires WellFormed(g) && Keyed(g) && x in g.all && InvActed(g, a, x) && x in a
    ensures Base(g, a) && Announcing(g, a, a[x := CloseRes(a[x])], x, 0)
    ensures Calm(g, a, x) ==> Once(a[x := CloseRes(a[x])])
  {
    hide InvActed, Calm, Announcing, Base, Once, Owned, WellFormed;
    AnnounceStart(g, a, x);
    if Calm(g, a, x) {
      CalmClose(g, a, x);
    }
  }

  /** The world in which the next subscriber is called. */
  lemma CallCalm<R>(g: Graph<R>, a: World<R>, w: World<R>, x: R, i: nat)
    requires WellFormed(g) && x in g.all && a.Keys == g.all && Keyed(g) && Base(g, a) && Announcing(g, a, w, x, i)
    requires i < |a[x].onClosed| && Calm(g, a, x) && Once(w)
    ensures var it := a[x].onClosed[i];
            x in w && CalmFor(g, w[x := w[x].(notified := w[x].notified + [it])], it, x)
  {
    hide Base, Owned, Calm, CalmFor, Once, Announced, OthersProgress, Listed;
    ListsRegistered(g, w, x);
    AnnounceCalm(g, a, w, x, i);
    NotifyCalm(g, w, x, w[x].notified + [a[x].onClosed[i]], a[x].onClosed[i]);
  }

  lemma CloseOnce<R>(w: World<R>, x: R)
    requires x in w && Once(w)
    ensures Once(w[x := CloseRes(w[x])]) && Once(w[x := w[x].(state := Closing)])
  {
  }

  // ----- Closing a tree from a world at rest -----

  /** No announcement is under way, and all is in order. */
  ghost predicate Resting<R>(g: Graph<R>, w: World<R>)
    requires WellFormed(g)
  {
    w.Keys == g.all && Inv(g, w) && Quiet(w) && InOrder(g, w) && Once(w)
  }

  lemma ProgressRests<R>(g: Graph<R>, w: World<R>, v: World<R>)
    requires WellFormed(g) && Resting(g, w) && Inv(g, v) && Progress(w, v) && Once(v)
    ensures Resting(g, v)
  {
    hide Inv, Quiet, Advanced, ListsShrink, InOrder, Once, Owned;
    WellFormedKeyed(g);
    ProgressInOrder(g, w, v);
    QuietStays(w, v);
  }

  lemma RestingMarked<R>(g: Graph<R>, a: World<R>, x: R)
    requires WellFormed(g) && x in g.all && Resting(g, a) && a[x].state == Alive
    ensures var w := a[x := a[x].(state := Closing)];
            Calm(g, w, x) && Once(w)
  {
    hide Inv, InOrder, Owned, Awaits;
    WellFormedKeyed(g);
    var w := a[x := a[x].(state := Closing)];
    QuietCalm(g, a, x);
    CloseOnce(a, x);
    assert InOrder(g, w) by {
      StateInOrder(g, a, x);
    }
    forall t, y | t in g.all && y in g.all && Awaits(g, t, x) ensures !Stale(w, t, y) {
      assert Stale(w, t, y) ==> Stale(a, t, y);
    }
  }

  lemma StateInOrder<R>(g: Graph<R>, w: World<R>, x: R)
    requires WellFormed(g) && x in w && InOrder(g, w)
    ensures InOrder(g, w[x := w[x].(state := Closing)])
  {
    hide QueueInOrder, Owned;
    var v := w[x := w[x].(state := Closing)];
    forall c | c in v ensures QueueInOrder(g, v[c].onClosed) {
      assert QueueInOrder(g, w[c].onClosed);
    }
  }

  lemma DescendResting<R>(g: Graph<R>, a: World<R>, w: World<R>, x: R, items: seq<R>, i: nat)
    requires WellFormed(g) && x in g.all && a.Keys == g.all && Descending(g, a, w, x, items, i)
    requires Resting(g, a) && Once(w)
    ensures Resting(g, w)
  {
    hide Inv, Progress, Owned, Resting, Once, TreeAlive, TreeLeft, RestKept, EndsWith, Distinct;
    ProgressRests(g, a, w);
  }

  // ----- Which 'all done' comes first -----

  /** Does `o` close, and has everyone it told acknowledged, as soon as it crosses
      off a blocker? */
  ghost predicate ClosesWith<R>(w: World<R>, o: R) {
    && o in w && w[o].state == Closing && w[o].action == Immediate && BlockersClosed(w, o)
    && forall it :: it in w[o].onClosed ==> !Owes(it)
  }

  /** Before the child is acknowledged its owner announces 'all done' exactly in this case. */
  lemma OwnerFirst<R>(g: Graph<R>, w: World<R>, v: World<R>, u: World<R>, o: R, c: R)
    requires Keyed(g) && o in g.all && c in g.all && o != c && Inv(g, w) && Inv(g, u) && w.Keys == g.all
    requires w[c].state == Closed && w[c].onClosed != []
    requires v == w[o := w[o].(underlying := RemovePtr(w[o].underlying, c))] && c in w[o].underlying
    requires Progress(v, u)
    requires if v[o].state == Closing && BlockersClosed(v, o)
             then (if v[o].action == Immediate then u[o].state == Closed else u == v[o := StartRes(v[o])])
             else u == v
    ensures u.Keys == g.all && u[c].fired == 0
    ensures u[o].fired == 1 <==> w[o].fired == 1 || ClosesWith(w, o)
  {
    hide Settled, Registered, BottomUp, Tidy, RemovePtr, ListsShrink;
    assert Sound(g, w, o) && Sound(g, w, c) && Sound(g, u, o) && Sound(g, u, c);
    assert Advanced(v[c], u[c]) && Advanced(v[o], u[o]);
    CrossedBlockers(g, w, o, c);
    if v[o].state == Closing && BlockersClosed(v, o) && v[o].action == Immediate {
      UnackedNone(v[o].onClosed);
    }
  }

  lemma CrossedBlockers<R>(g: Graph<R>, w: World<R>, o: R, c: R)
    requires Keyed(g) && o in g.all && c in g.all && w.Keys == g.all && Sound(g, w, o) && w[c].state == Closed && o != c
    ensures BlockersClosed(w, o) <==> BlockersClosed(w[o := w[o].(underlying := RemovePtr(w[o].underlying, c))], o)
  {
    assert Registered(g, w, o);
    RemovePtrElements(w[o].underlying, c);
    hide RemovePtr, Addressed, Distinct;
  }

  lemma UnackedNone<R>(q: seq<Item<R>>)
    ensures Unacked(q) == [] <==> forall it :: it in q ==> !Owes(it)
  {
    if exists it :: it in q && Owes(it) {
      var it :| it in q && Owes(it);
      assert it in Unacked(q);
    }
    if Unacked(q) != [] {
      assert Unacked(q)[0] in Unacked(q);
    }
  }

  /** At any moment an owner's 'all done' has been announced and that of what it owns
      has not, exactly if the owner is closed with nobody left to acknowledge while
      somebody has yet to acknowledge the other. */
  lemma OwnerAheadExactly<R>(g: Graph<R>, w: World<R>, o: R, c: R)
    requires Keyed(g) && o in g.all && c in g.kids[o] && Inv(g, w)
    ensures w[o].fired > 0 && w[c].fired == 0 <==> w[o].state == Closed && w[o].onClosed == [] && w[c].onClosed != []
  {
    assert Sound(g, w, o) && Sound(g, w, c);
  }
}
