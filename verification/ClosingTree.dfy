/**
 Closing a whole tree from the top: which resources one call of
 `ten_closeable_close` reaches, and why none of them is left behind.
 */
module ClosingTree {
  import opened ClosingGraph
  import opened ClosingInvariant

  ghost predicate TreeAlive<R>(g: Graph<R>, w: World<R>, x: R)
    requires Owned(g) && w.Keys == g.all
  {
    forall r :: r in g.all && InTree(g, r, x) ==> w[r].state == Alive
  }

  ghost predicate TreeLeft<R>(g: Graph<R>, w: World<R>, x: R)
    requires Owned(g) && w.Keys == g.all
  {
    forall r :: r in g.all && InTree(g, r, x) ==> w[r].state != Alive
  }

  /** Outside the tree of `x` nothing has started to close. */
  ghost predicate RestKept<R>(g: Graph<R>, w: World<R>, v: World<R>, x: R)
    requires Owned(g) && w.Keys == g.all == v.Keys
  {
    forall r :: r in g.all && !InTree(g, r, x) ==> (w[r].state == Alive <==> v[r].state == Alive)
  }

  /** What one call of `close` on `x` does between `w` and `v`. */
  ghost predicate ClosedTree<R>(g: Graph<R>, w: World<R>, v: World<R>, x: R)
    requires Owned(g)
  {
    w.Keys == g.all == v.Keys && Inv(g, v) && Progress(w, v) && TreeLeft(g, v, x) && RestKept(g, w, v, x)
  }

  /** The loop of `close` over what `x` owns: the first `i` trees have been told to
      close, the others are untouched, and their roots are still the end of the
      list, so that the node read ahead is in it and is the right one. */
  ghost predicate Descending<R>(g: Graph<R>, a: World<R>, w: World<R>, x: R, items: seq<R>, i: nat)
    requires Owned(g) && x in g.all && a.Keys == g.all
  {
    && w.Keys == g.all && Inv(g, w) && Progress(a, w) && RestKept(g, a, w, x) && w[x].state != Alive
    && i <= |items| && Distinct(items)
    && (forall j :: 0 <= j < |items| ==> items[j] in g.kids[x])
    && (forall k :: k in g.kids[x] ==> k in items)
    && (forall j :: 0 <= j < i ==> TreeLeft(g, w, items[j]))
    && (forall j :: i <= j < |items| ==> TreeAlive(g, w, items[j]) && items[j] in w[x].underlying)
    && EndsWith(w[x].underlying, items[i..])
  }

  lemma ClosingKeepsBase<R>(g: Graph<R>, a: World<R>, x: R)
    requires Keyed(g) && x in g.all && Base(g, a) && a[x].state == Alive
    ensures Base(g, a[x := a[x].(state := Closing)])
  {
    var w := a[x := a[x].(state := Closing)];
    forall y | y in g.all ensures Sound(g, w, y) {
      assert Sound(g, a, y);
    }
  }

  lemma ToClosing<R>(g: Graph<R>, a: World<R>, x: R)
    requires Keyed(g) && x in g.all && Inv(g, a) && a[x].state == Alive
    ensures var w := a[x := a[x].(state := Closing)];
            InvBut(g, w, x) && Progress(a, w)
  {
    hide Sound;
    var w := a[x := a[x].(state := Closing)];
    ClosingKeepsBase(g, a, x);
    forall y | y in g.all && y != x ensures Settled(w, y) {
      SettledSame(a, w, y);
    }
    assert Settled(a, x);
    MarkingProgress(a, x);
  }

  lemma MarkingProgress<R>(a: World<R>, x: R)
    requires x in a && a[x].state == Alive
    ensures Progress(a, a[x := a[x].(state := Closing)])
  {
    hide LeftOf;
    var w := a[x := a[x].(state := Closing)];
    forall y | y in a ensures Advanced(a[y], w[y]) && ListsShrink(a, w, y, {}) {
      AllLeft(a[y].underlying);
      AllLeft(a[y].dependents);
    }
  }

  /** Whatever a resource with a living tree owns is still listed. */
  lemma KidsListed<R>(g: Graph<R>, w: World<R>, x: R)
    requires WellFormed(g) && x in g.all && Inv(g, w) && TreeAlive(g, w, x)
    ensures forall k :: k in g.kids[x] ==> k in w[x].underlying && TreeAlive(g, w, k)
  {
    assert Sound(g, w, x);
    forall k | k in g.kids[x] ensures k in w[x].underlying && TreeAlive(g, w, k) {
      assert g.owner[k] == x && InTree(g, x, x) && InTree(g, k, x);
      forall r | r in g.all && InTree(g, r, k) ensures w[r].state == Alive {
        TreeTransitive(g, r, k, x);
      }
    }
  }

  lemma OwnerStays<R>(g: Graph<R>, a: World<R>, w: World<R>, x: R, k: R)
    requires WellFormed(g) && x in g.all && k in g.kids[x] && a.Keys == g.all == w.Keys && TreeAlive(g, a, k)
    requires forall y :: y in g.all && y != x ==> w[y].state == a[y].state
    ensures TreeAlive(g, w, k)
  {
    BlockerRank(g, x, k);
    forall r | r in g.all && InTree(g, r, k) ensures r != x {
      TreeRank(g, r, k);
    }
  }

  /** The lists of `x` are exactly what it owns, so `close` visits all of that. */
  lemma DescendStart<R>(g: Graph<R>, a: World<R>, w: World<R>, x: R)
    requires WellFormed(g) && x in g.all && Inv(g, a) && TreeAlive(g, a, x)
    requires w == a[x := a[x].(state := Closing)] && Inv(g, w)
    ensures Descending(g, a, w, x, w[x].underlying, 0)
  {
    hide Inv, Progress, Keyed, Owned, TreeAlive, RestKept, TreeLeft;
    WellFormedKeyed(g);
    ListsRegistered(g, a, x);
    TreeRootAlive(g, a, x);
    KidsListed(g, a, x);
    ToClosing(g, a, x);
    KidsStay(g, a, w, x);
  }

  lemma KidsStay<R>(g: Graph<R>, a: World<R>, w: World<R>, x: R)
    requires WellFormed(g) && x in g.all && a.Keys == g.all && w == a[x := a[x].(state := Closing)]
    requires forall k :: k in g.kids[x] ==> TreeAlive(g, a, k)
    ensures RestKept(g, a, w, x) && forall k :: k in g.kids[x] ==> TreeAlive(g, w, k)
  {
    hide TreeAlive;
    WellFormedKeyed(g);
    forall k | k in g.kids[x] ensures TreeAlive(g, w, k) {
      OwnerStays(g, a, w, x, k);
    }
    assert InTree(g, x, x);
  }

  lemma LeftStaysLeft<R>(w: World<R>, v: World<R>, r: R)
    requires Progress(w, v) && r in w && w[r].state != Alive
    ensures v[r].state != Alive
  {
    assert Advanced(w[r], v[r]);
  }

  lemma AliveIsListed<R>(g: Graph<R>, w: World<R>, x: R, k: R)
    requires Keyed(g) && x in g.all && Inv(g, w) && k in g.kids[x] && w[k].state == Alive
    ensures k in w[x].underlying
  {
    assert Sound(g, w, x);
  }

  /** Closing the tree of `k` keeps the rest of the tree of its owner `x`. */
  lemma StepRest<R>(g: Graph<R>, a: World<R>, w: World<R>, v: World<R>, x: R, k: R)
    requires WellFormed(g) && x in g.all && k in g.kids[x] && a.Keys == w.Keys == v.Keys == g.all
    requires RestKept(g, a, w, x) && RestKept(g, w, v, k)
    ensures RestKept(g, a, v, x)
    ensures w[x].state == Alive <==> v[x].state == Alive
  {
    forall r | r in g.all && !InTree(g, r, x) ensures !InTree(g, r, k) {
      KidTreeInTree(g, r, k, x);
    }
    BlockerRank(g, x, k);
    if InTree(g, x, k) {
      TreeRank(g, x, k);
    }
  }

  lemma StepDone<R>(g: Graph<R>, w: World<R>, v: World<R>, k: R)
    requires Owned(g) && w.Keys == g.all && Progress(w, v) && TreeLeft(g, w, k)
    ensures TreeLeft(g, v, k)
  {
    forall r | r in g.all && InTree(g, r, k) ensures v[r].state != Alive {
      LeftStaysLeft(w, v, r);
    }
  }

  /** Closing the tree of `k` leaves the tree of its sibling `l` untouched. */
  lemma StepTodo<R>(g: Graph<R>, w: World<R>, v: World<R>, x: R, k: R, l: R)
    requires WellFormed(g) && x in g.all && k in g.kids[x] && l in g.kids[x] && k != l && w.Keys == v.Keys == g.all
    requires RestKept(g, w, v, k) && TreeAlive(g, w, l) && Inv(g, v)
    ensures TreeAlive(g, v, l) && l in v[x].underlying
  {
    hide Inv;
    forall r | r in g.all && InTree(g, r, l) ensures v[r].state == Alive {
      SiblingTreesDisjoint(g, x, l, k, r);
    }
    assert InTree(g, l, l);
    AliveIsListed(g, v, x, l);
  }

  /** Closing one owned tree leaves the trees still to be closed untouched. */
  lemma DescendStep<R>(g: Graph<R>, a: World<R>, w: World<R>, v: World<R>, x: R, items: seq<R>, i: nat)
    requires WellFormed(g) && x in g.all && a.Keys == g.all && Descending(g, a, w, x, items, i) && i < |items|
    requires ClosedTree(g, w, v, items[i])
    ensures Descending(g, a, v, x, items, i + 1)
  {
    hide Inv, Progress, Distinct, RestKept, TreeLeft, TreeAlive, Owned;
    ProgressTransitive(a, w, v);
    StepRest(g, a, w, v, x, items[i]);
    forall j | 0 <= j < i + 1 ensures TreeLeft(g, v, items[j]) {
      if j < i {
        StepDone(g, w, v, items[j]);
      }
    }
    forall j | i + 1 <= j < |items| ensures TreeAlive(g, v, items[j]) && items[j] in v[x].underlying {
      DistinctAt(items, i, j);
      StepTodo(g, w, v, x, items[i], items[j]);
    }
    EndStays(w, v, x, items, i);
  }

  lemma EndStays<R>(w: World<R>, v: World<R>, x: R, items: seq<R>, i: nat)
    requires Progress(w, v) && x in w && i < |items| && EndsWith(w[x].underlying, items[i..])
    requires forall j :: i + 1 <= j < |items| ==> items[j] in v[x].underlying
    ensures EndsWith(v[x].underlying, items[i + 1..])
  {
    assert ListsShrink(w, v, x, {});
    hide ListsShrink, LeftOf, Advanced;
    var u, b := w[x].underlying, items[i + 1..];
    var a := u[..|u| - |b|];
    assert items[i..][1..] == b && u == a + b;
    EndsAlike(a, b, v[x].underlying);
  }

  lemma DistinctAt<T>(s: seq<T>, i: nat, j: nat)
    requires Distinct(s) && i < j < |s|
    ensures s[i] != s[j]
  {
  }

  lemma KidTreeInTree<R>(g: Graph<R>, r: R, k: R, x: R)
    requires WellFormed(g) && r in g.all && x in g.all && k in g.kids[x]
    ensures InTree(g, r, k) ==> InTree(g, r, x)
  {
    assert g.owner[k] == x && InTree(g, x, x) && InTree(g, k, x);
    if InTree(g, r, k) {
      TreeTransitive(g, r, k, x);
    }
  }

  lemma DescendEnd<R>(g: Graph<R>, a: World<R>, w: World<R>, x: R, items: seq<R>)
    requires WellFormed(g) && x in g.all && a.Keys == g.all && Descending(g, a, w, x, items, |items|)
    ensures ClosedTree(g, a, w, x)
  {
    hide Inv, Progress, Distinct, RestKept, TreeAlive;
    forall r | r in g.all && InTree(g, r, x) ensures w[r].state != Alive {
      if r != x {
        var k := TreeOfKid(g, r, x);
        assert k in items;
        var j :| 0 <= j < |items| && items[j] == k;
        assert TreeLeft(g, w, items[j]);
      }
    }
  }

  lemma TreeRootAlive<R>(g: Graph<R>, w: World<R>, x: R)
    requires Owned(g) && x in g.all && w.Keys == g.all && TreeAlive(g, w, x)
    ensures w[x].state == Alive && x in InState(w, Alive)
    ensures InState(w[x := w[x].(state := Closing)], Alive) < InState(w, Alive)
  {
    assert InTree(g, x, x);
    assert x !in InState(w[x := w[x].(state := Closing)], Alive);
  }

  /** A resource that can start to close at once owns nothing. */
  lemma ReadyHasNoKids<R>(g: Graph<R>, a: World<R>, w: World<R>, x: R)
    requires WellFormed(g) && x in g.all && Inv(g, a) && TreeAlive(g, a, x)
    requires w == a[x := a[x].(state := Closing)] && InvBut(g, w, x) && BlockersClosed(w, x)
    ensures g.kids[x] == [] && InvReady(g, w, x)
  {
    hide Inv, Sound, Settled;
    KidsListed(g, a, x);
    if g.kids[x] != [] {
      var k := g.kids[x][0];
      BlockerRank(g, x, k);
      TreeRootAlive(g, a, k);
    }
  }

  lemma LeafTree<R>(g: Graph<R>, r: R, x: R)
    requires WellFormed(g) && r in g.all && x in g.all && g.kids[x] == []
    ensures InTree(g, r, x) <==> r == x
  {
    if InTree(g, r, x) && r != x {
      var k := TreeOfKid(g, r, x);
    }
  }

  lemma ReadyClosesTree<R>(g: Graph<R>, a: World<R>, w: World<R>, v: World<R>, x: R)
    requires WellFormed(g) && x in g.all && a.Keys == g.all && g.kids[x] == [] && a[x].state == Alive
    requires w == a[x := a[x].(state := Closing)] && Progress(a, w)
    requires Inv(g, v) && v.Keys == g.all && Progress(w, v) && SameAlive(w, v)
    ensures ClosedTree(g, a, v, x)
  {
    hide Inv, Progress, Owned;
    ProgressTransitive(a, w, v);
    LeftStaysLeft(w, v, x);
    forall r | r in g.all ensures InTree(g, r, x) <==> r == x {
      LeafTree(g, r, x);
    }
  }

  lemma BlockedIsSettled<R>(g: Graph<R>, w: World<R>, x: R)
    requires Keyed(g) && x in g.all && InvBut(g, w, x) && !BlockersClosed(w, x)
    ensures Inv(g, w)
  {
    hide Base, Settled;
  }

  lemma DescendNext<R>(g: Graph<R>, a: World<R>, w: World<R>, x: R, items: seq<R>, i: nat)
    requires WellFormed(g) && x in g.all && a.Keys == g.all && Descending(g, a, w, x, items, i) && i < |items|
    requires a[x].state == Alive
    ensures items[i] in g.all && Inv(g, w) && TreeAlive(g, w, items[i]) && items[i] in w[x].underlying
    ensures InState(w, Alive) < InState(a, Alive)
  {
    hide Inv, Owned, RestKept, TreeLeft, TreeAlive, Distinct;
    BlockerRank(g, x, items[i]);
    forall r | r in w && w[r].state == Alive ensures a[r].state == Alive {
      assert Advanced(a[r], w[r]);
    }
    assert x in InState(a, Alive) && x !in InState(w, Alive);
  }

  // ----- Between two calls from outside -----

  /** No announcement is under way: what a closed resource still holds are the
      subscriptions of outsiders that have been called and will acknowledge later. */
  ghost predicate Quiet<R>(w: World<R>) {
    forall y :: y in w && w[y].state == Closed ==> forall it :: it in w[y].onClosed ==> Owes(it)
  }

  lemma QuietStays<R>(w: World<R>, v: World<R>)
    requires Quiet(w) && Progress(w, v)
    ensures Quiet(v)
  {
    forall y | y in v && v[y].state == Closed ensures forall it :: it in v[y].onClosed ==> Owes(it) {
      assert Advanced(w[y], v[y]);
    }
  }

  /** Is the own action of this resource started but not complete? */
  ghost predicate Pending<R>(r: Res<R>) {
    r.state == Closing && r.runs > 0
  }

  /** Does `x` wait, directly or not, for `p`? */
  ghost predicate Awaits<R>(g: Graph<R>, x: R, p: R)
    requires WellFormed(g) && x in g.all
    decreases g.rank[x]
  {
    || x == p
    || (exists k :: k in g.kids[x] && Awaits(g, k, p))
    || (exists d :: d in g.deps[x] && Awaits(g, d, p))
  }

  /** No wake-up is lost: if all that a closing resource still lists is closed, its
      own action was started, or somebody it lists has yet to tell it. */
  lemma NoLostWakeUp<R>(g: Graph<R>, w: World<R>, x: R)
    requires Keyed(g) && x in g.all && Inv(g, w) && w[x].state == Closing && BlockersClosed(w, x)
    ensures w[x].runs > 0
         || (exists c :: c in w[x].underlying && c in w && Addressed(w[c].onClosed, x, OwnerDefault))
         || (exists c :: c in w[x].dependents && c in w && Addressed(w[c].onClosed, x, DependencyDefault))
  {
    assert Settled(w, x) && Sound(g, w, x);
    if w[x].runs == 0 {
      if w[x].underlying != [] {
        assert w[x].underlying[0] in w[x].underlying;
      } else {
        assert w[x].dependents[0] in w[x].dependents;
      }
    }
  }

  /** In a quiet world every blocker still listed is not closed. */
  lemma QuietBlockers<R>(g: Graph<R>, w: World<R>, x: R, y: R)
    requires Keyed(g) && x in g.all && Inv(g, w) && Quiet(w)
    requires y in w[x].underlying || y in w[x].dependents
    ensures y in g.all && w[y].state != Closed
    ensures y in w[x].underlying ==> y in g.kids[x]
    ensures y in w[x].dependents ==> y in g.deps[x]
  {
    assert Sound(g, w, x);
    var cb := if y in w[x].underlying then OwnerDefault else DependencyDefault;
    var i :| 0 <= i < |w[y].onClosed| && w[y].onClosed[i].who == Resource(x) && w[y].onClosed[i].cb == cb;
    assert !Owes(w[y].onClosed[i]);
  }

  /** A resource that was told to close but has not closed waits for some action
      that is not complete or for some resource that nobody told to close. */
  lemma {:induction false} OpenForAReason<R>(g: Graph<R>, w: World<R>, x: R) returns (p: R)
    requires WellFormed(g) && x in g.all && Inv(g, w) && Quiet(w) && w[x].state != Closed
    ensures p in g.all && Awaits(g, x, p) && (Pending(w[p]) || w[p].state == Alive)
    decreases g.rank[x]
  {
    if Pending(w[x]) || w[x].state == Alive {
      p := x;
    } else {
      assert Settled(w, x);
      var y := if w[x].underlying != [] then w[x].underlying[0] else w[x].dependents[0];
      QuietBlockers(g, w, x, y);
      BlockerRank(g, x, y);
      p := OpenForAReason(g, w, y);
    }
  }

  lemma {:induction false} ClosedAwaitsClosed<R>(g: Graph<R>, w: World<R>, x: R, p: R)
    requires WellFormed(g) && x in g.all && p in g.all && Inv(g, w) && w[x].state == Closed && Awaits(g, x, p)
    ensures w[p].state == Closed
    decreases g.rank[x]
  {
    if x != p {
      assert Sound(g, w, x);
      if k :| k in g.kids[x] && Awaits(g, k, p) {
        ClosedAwaitsClosed(g, w, k, p);
      } else {
        var d :| d in g.deps[x] && Awaits(g, d, p);
        ClosedAwaitsClosed(g, w, d, p);
      }
    }
  }

  /** No resource is stuck: between calls a resource is closed exactly when
      everything it waits for was told to close and no action it waits for is pending. */
  lemma ClosedExactly<R>(g: Graph<R>, w: World<R>, x: R)
    requires WellFormed(g) && x in g.all && w.Keys == g.all && Inv(g, w) && Quiet(w)
    ensures w[x].state == Closed
       <==> forall p :: p in g.all && Awaits(g, x, p) ==> w[p].state != Alive && !Pending(w[p])
  {
    hide Inv, Quiet;
    if w[x].state == Closed {
      forall p | p in g.all && Awaits(g, x, p) ensures w[p].state == Closed {
        ClosedAwaitsClosed(g, w, x, p);
      }
    } else {
      var p := OpenForAReason(g, w, x);
    }
  }

  /** Does everything that depends on a resource of the tree of `x` belong to that tree? */
  ghost predicate DependentsInside<R>(g: Graph<R>, x: R)
    requires WellFormed(g)
  {
    forall r, d :: r in g.all && d in g.deps[r] && InTree(g, r, x) ==> InTree(g, d, x)
  }

  lemma {:induction false} AwaitsInside<R>(g: Graph<R>, x: R, r: R, p: R)
    requires WellFormed(g) && DependentsInside(g, x) && x in g.all && r in g.all && p in g.all
    requires InTree(g, r, x) && Awaits(g, r, p)
    ensures InTree(g, p, x)
    decreases g.rank[r]
  {
    if r != p {
      if k :| k in g.kids[r] && Awaits(g, k, p) {
        BlockerRank(g, r, k);
        assert g.owner[k] == r && InTree(g, k, x);
        AwaitsInside(g, x, k, p);
      } else {
        var d :| d in g.deps[r] && Awaits(g, d, p);
        BlockerRank(g, r, d);
        AwaitsInside(g, x, d, p);
      }
    }
  }

  /** Once the tree of `x` has been told to close, all of it is closed as soon as
      no action inside it is pending. */
  lemma TreeClosesWhole<R>(g: Graph<R>, w: World<R>, x: R)
    requires WellFormed(g) && x in g.all && w.Keys == g.all && Inv(g, w) && Quiet(w)
    requires TreeLeft(g, w, x) && DependentsInside(g, x)
    ensures (forall r :: r in g.all && InTree(g, r, x) ==> w[r].state == Closed)
       <==> (forall r :: r in g.all && InTree(g, r, x) ==> !Pending(w[r]))
  {
    hide Inv, Quiet, Owned, DependentsInside;
    if forall r :: r in g.all && InTree(g, r, x) ==> !Pending(w[r]) {
      forall r | r in g.all && InTree(g, r, x) ensures w[r].state == Closed {
        if w[r].state != Closed {
          var p := OpenForAReason(g, w, r);
          AwaitsInside(g, x, r, p);
        }
      }
    }
  }
}
