/**
 The invariants of the closing protocol and the effect on them of each single
 update the protocol makes.
 */
module ClosingInvariant {
  import opened ClosingGraph

  // ----- Invariants -----

  /** Does `q` hold a subscription of the resource `x` with the callback `cb`? */
  ghost predicate Addressed<R>(q: seq<Item<R>>, x: R, cb: Callback) {
    exists i :: 0 <= i < |q| && q[i].who == Resource(x) && q[i].cb == cb
  }

  ghost predicate GoodItem<R>(g: Graph<R>, y: R, it: Item<R>)
    requires Keyed(g)
  {
    match it.cb
    case OwnerDefault => it.who.Resource? && it.who.res in g.all && y in g.kids[it.who.res]
    case DependencyDefault => it.who.Resource? && it.who.res in g.all && y in g.deps[it.who.res]
    case External(_) => it.who.Outside?
  }

  /** A resource subscribes at most once; other subscribers differ in their data. */
  ghost predicate KeysDistinct<R>(q: seq<Item<R>>) {
    forall i, j :: 0 <= i < j < |q| ==>
      q[i].who != q[j].who || (q[i].who.Outside? && q[i].data != q[j].data)
  }

  ghost predicate Tidy<R>(g: Graph<R>, y: R, r: Res<R>)
    requires Keyed(g)
  {
    && KeysDistinct(r.onClosed)
    && (forall it :: it in r.onClosed ==> GoodItem(g, y, it))
    && (forall it :: it in r.onAllDone ==> it.who.Outside? || (it.who.res in g.all && y in g.kids[it.who.res]))
  }

  /** 'All done' is announced once, when the last subscriber has acknowledged. */
  ghost predicate AllDoneOnce<R>(r: Res<R>) {
    && (r.state == Closed && r.onClosed == [] ==> r.fired == 1 && r.onAllDone == [])
    && (r.state != Closed || r.onClosed != [] ==> r.fired == 0 && r.allDoneLog == [])
    && (r.state != Closed ==> r.notified == [])
  }

  /** The lists of `x` hold only registered resources, without repetition, and
      each of them still holds the subscription that will cross it off. */
  ghost predicate Registered<R>(g: Graph<R>, w: World<R>, x: R)
    requires Keyed(g) && w.Keys == g.all && x in g.all
  {
    && Distinct(w[x].underlying) && Distinct(w[x].dependents)
    && (forall k :: k in w[x].underlying ==> k in g.kids[x] && Addressed(w[k].onClosed, x, OwnerDefault))
    && (forall d :: d in w[x].dependents ==> d in g.deps[x] && Addressed(w[d].onClosed, x, DependencyDefault))
  }

  /** Whoever left a list of `x` is closed, and so is whatever `x` waited for if `x` is closed. */
  ghost predicate BottomUp<R>(g: Graph<R>, w: World<R>, x: R)
    requires Keyed(g) && w.Keys == g.all && x in g.all
  {
    && (forall k :: k in g.kids[x] && (k !in w[x].underlying || w[x].state == Closed) ==> w[k].state == Closed)
    && (forall d :: d in g.deps[x] && (d !in w[x].dependents || w[x].state == Closed) ==> w[d].state == Closed)
  }

  ghost predicate Sound<R>(g: Graph<R>, w: World<R>, x: R)
    requires Keyed(g) && w.Keys == g.all && x in g.all
  {
    Registered(g, w, x) && BottomUp(g, w, x) && Tidy(g, x, w[x]) && AllDoneOnce(w[x])
  }

  ghost predicate Base<R>(g: Graph<R>, w: World<R>)
    requires Keyed(g)
  {
    w.Keys == g.all && forall x {:trigger Sound(g, w, x)} :: x in g.all ==> Sound(g, w, x)
  }

  /** Everything `x` still lists is closed (`could_start_to_close_myself`). */
  ghost predicate BlockersClosed<R>(w: World<R>, x: R)
    requires x in w
  {
    && (forall k :: k in w[x].underlying ==> k in w && w[k].state == Closed)
    && (forall d :: d in w[x].dependents ==> d in w && w[d].state == Closed)
  }

  /** No wake-up of `x` is lost: a closing resource whose own action has not been
      started still lists a blocker. The action of an `Immediate` resource runs
      once, exactly when it becomes closed; that of a `Deferred` resource runs
      once and once more for each blocker not crossed off at its first start. */
  ghost predicate Settled<R>(w: World<R>, x: R)
    requires x in w
  {
    var r := w[x];
    match r.state
    case Alive => r.runs == 0
    case Closing =>
      if r.runs == 0 then r.underlying != [] || r.dependents != []
      else r.action == Deferred && BlockersClosed(w, x)
           && r.runs + |r.underlying| + |r.dependents| == 1 + r.backlog
    case Closed =>
      if r.action == Immediate then r.runs == 1
      else r.runs == 1 + r.backlog && r.underlying == [] && r.dependents == []
  }

  ghost predicate Inv<R>(g: Graph<R>, w: World<R>)
    requires Keyed(g)
  {
    Base(g, w) && forall x {:trigger Settled(w, x)} :: x in g.all ==> Settled(w, x)
  }

  /** All the invariants, except that `x` has just become ready to close. */
  ghost predicate InvReady<R>(g: Graph<R>, w: World<R>, x: R)
    requires Keyed(g) && x in g.all
  {
    && Base(g, w)
    && (forall y {:trigger Settled(w, y)} :: y in g.all && y != x ==> Settled(w, y))
    && w[x].state == Closing && BlockersClosed(w, x)
    && (w[x].runs == 0 || (w[x].action == Deferred
                           && w[x].runs + |w[x].underlying| + |w[x].dependents| == w[x].backlog))
  }

  /** All the invariants, but whether `x` may start to close is still to be checked. */
  ghost predicate InvBut<R>(g: Graph<R>, w: World<R>, x: R)
    requires Keyed(g) && x in g.all
  {
    && Base(g, w)
    && (forall y {:trigger Settled(w, y)} :: y in g.all && y != x ==> Settled(w, y))
    && (if w[x].state == Closing && BlockersClosed(w, x) then InvReady(g, w, x) else Settled(w, x))
  }

  /** All the invariants, except that the action of `x` has just completed. */
  ghost predicate InvActed<R>(g: Graph<R>, w: World<R>, x: R)
    requires Keyed(g) && x in g.all
  {
    && Base(g, w)
    && (forall y {:trigger Settled(w, y)} :: y in g.all && y != x ==> Settled(w, y))
    && w[x].state == Closing && BlockersClosed(w, x)
    && (if w[x].action == Immediate then w[x].runs == 1
        else w[x].runs == 1 + w[x].backlog && w[x].underlying == [] && w[x].dependents == [])
  }

  // ----- The single updates -----

  function FireAllDone<R>(r: Res<R>): Res<R> {
    r.(fired := r.fired + 1, allDoneLog := r.allDoneLog + r.onAllDone, onAllDone := [])
  }

  /** The own action is done: the resource is closed. */
  function CloseRes<R>(r: Res<R>): Res<R> {
    var c := r.(state := Closed);
    if c.onClosed == [] then FireAllDone(c) else c
  }

  /** A subscriber acknowledges. */
  function AckRes<R(==)>(r: Res<R>, who: Who<R>, data: int): Res<R> {
    var c := r.(onClosed := RemoveItem(r.onClosed, who, data));
    if c.onClosed == [] then FireAllDone(c) else c
  }

  /** The own action is started. */
  function StartRes<R>(r: Res<R>): Res<R> {
    r.(runs := r.runs + 1, backlog := if r.runs == 0 then |r.underlying| + |r.dependents| else r.backlog)
  }

  /** Changing one resource without touching what others see of it keeps the
      structural invariants of the others. */
  lemma OthersSound<R>(g: Graph<R>, w: World<R>, x: R, r: Res<R>)
    requires Keyed(g) && x in g.all && Base(g, w)
    requires r.onClosed == w[x].onClosed && (r.state == w[x].state || r.state == Closed)
    requires Sound(g, w[x := r], x)
    ensures Base(g, w[x := r])
  {
    hide Tidy, AllDoneOnce, Addressed, Distinct;
    var v := w[x := r];
    forall y | y in g.all ensures Sound(g, v, y) {
      assert Sound(g, w, y);
    }
  }

  lemma CloseKeepsInv<R>(g: Graph<R>, w: World<R>, x: R)
    requires Keyed(g) && x in g.all && InvActed(g, w, x)
    ensures Inv(g, w[x := CloseRes(w[x])])
  {
    var v := w[x := CloseRes(w[x])];
    assert Sound(g, v, x) by {
      assert Sound(g, w, x);
    }
    OthersSound(g, w, x, v[x]);
    forall y | y in g.all ensures Settled(v, y) {
      hide Sound;
      assert y != x ==> Settled(w, y);
    }
  }

  lemma OthersSettled<R>(g: Graph<R>, w: World<R>, x: R, r: Res<R>)
    requires Keyed(g) && x in g.all && Inv(g, w) && r.state == w[x].state
    ensures forall y {:trigger Settled(w[x := r], y)} :: y in g.all && y != x ==> Settled(w[x := r], y)
  {
    hide Sound, Settled;
    forall y | y in g.all && y != x ensures Settled(w[x := r], y) {
      SettledSame(w, w[x := r], y);
    }
  }

  /** `u` is `s` with its only occurrence of `c` taken out. */
  ghost predicate Unlinked<R>(s: seq<R>, c: R, u: seq<R>) {
    && Distinct(u) && |u| == |s| - 1 && c !in u
    && (forall e :: e in u ==> e in s)
    && (forall e :: e in s && e != c ==> e in u)
  }

  lemma UnlinkKid<R>(g: Graph<R>, w: World<R>, o: R, c: R, u: seq<R>)
    requires Keyed(g) && o in g.all && c in g.all && Inv(g, w)
    requires w[c].state == Closed && Unlinked(w[o].underlying, c, u)
    ensures var v := w[o := w[o].(underlying := u)];
            InvBut(g, v, o)
  {
    var v := w[o := w[o].(underlying := u)];
    assert Sound(g, v, o) by {
      assert Sound(g, w, o);
    }
    OthersSound(g, w, o, v[o]);
    OthersSettled(g, w, o, v[o]);
    UnlinkSettles(w, v, o);
  }

  lemma UnlinkDependent<R>(g: Graph<R>, w: World<R>, o: R, c: R, u: seq<R>)
    requires Keyed(g) && o in g.all && c in g.all && Inv(g, w)
    requires w[c].state == Closed && Unlinked(w[o].dependents, c, u)
    ensures var v := w[o := w[o].(dependents := u)];
            InvBut(g, v, o)
  {
    var v := w[o := w[o].(dependents := u)];
    assert Sound(g, v, o) by {
      assert Sound(g, w, o);
    }
    OthersSound(g, w, o, v[o]);
    OthersSettled(g, w, o, v[o]);
    UnlinkSettles(w, v, o);
  }

  /** Crossing one closed blocker off `o` leaves `o` settled or ready to start. */
  lemma UnlinkSettles<R>(w: World<R>, v: World<R>, o: R)
    requires w.Keys == v.Keys && o in w && Settled(w, o)
    requires forall y :: y in w ==> v[y].state == w[y].state
    requires v[o] == w[o].(underlying := v[o].underlying, dependents := v[o].dependents)
    requires (forall e :: e in v[o].underlying ==> e in w[o].underlying) && (forall e :: e in v[o].dependents ==> e in w[o].dependents)
    requires |v[o].underlying| + |v[o].dependents| == |w[o].underlying| + |w[o].dependents| - 1
    ensures if v[o].state == Closing && BlockersClosed(v, o)
            then v[o].runs == 0 || (v[o].action == Deferred && v[o].runs + |v[o].underlying| + |v[o].dependents| == v[o].backlog)
            else Settled(v, o)
  {
  }

  lemma AckOneItem<R>(q: seq<Item<R>>, p: seq<Item<R>>, it: Item<R>, s: seq<Item<R>>)
    requires KeysDistinct(q) && q == p + [it] + s
    ensures RemoveItem(q, it.who, it.data) == p + s && KeysDistinct(p + s)
  {
    forall i | 0 <= i < |p| ensures !Matches(p[i], it.who, it.data) {
      assert q[i] == p[i] && q[|p|] == it;
    }
    RemoveItemAt(p, it, s);
    assert forall i :: 0 <= i < |p + s| ==> (p + s)[i] == q[if i < |p| then i else i + 1];
  }

  /** Acknowledging keeps the invariants if the acknowledged subscription belongs
      to a resource that has crossed `c` off already, or to no resource. */
  lemma AckKeepsInv<R>(g: Graph<R>, w: World<R>, c: R, p: seq<Item<R>>, it: Item<R>, s: seq<Item<R>>)
    requires Keyed(g) && c in g.all && Inv(g, w) && w[c].state == Closed
    requires w[c].onClosed == p + [it] + s
    requires it.who.Resource? ==> it.who.res in g.all && c !in w[it.who.res].underlying && c !in w[it.who.res].dependents
    ensures RemoveItem(w[c].onClosed, it.who, it.data) == p + s
    ensures Inv(g, w[c := AckRes(w[c], it.who, it.data)])
  {
    assert Sound(g, w, c);
    AckOneItem(w[c].onClosed, p, it, s);
    var r := AckRes(w[c], it.who, it.data);
    assert Tidy(g, c, r) && AllDoneOnce(r) by {
      assert forall e :: e in p + s ==> e in w[c].onClosed;
    }
    forall x | x in g.all && it.who != Resource(x)
      ensures Addressed(w[c].onClosed, x, OwnerDefault) ==> Addressed(r.onClosed, x, OwnerDefault)
      ensures Addressed(w[c].onClosed, x, DependencyDefault) ==> Addressed(r.onClosed, x, DependencyDefault)
    {
      AddressedStays(p, it, s, x, OwnerDefault);
      AddressedStays(p, it, s, x, DependencyDefault);
    }
    NewQueueKeepsInv(g, w, c, r);
  }

  lemma NewQueueKeepsInv<R>(g: Graph<R>, w: World<R>, c: R, r: Res<R>)
    requires Keyed(g) && c in g.all && Inv(g, w) && w[c].state == Closed
    requires r == w[c].(onClosed := r.onClosed, onAllDone := r.onAllDone, allDoneLog := r.allDoneLog, fired := r.fired)
    requires Tidy(g, c, r) && AllDoneOnce(r)
    requires forall x :: x in g.all && c in w[x].underlying && Addressed(w[c].onClosed, x, OwnerDefault) ==> Addressed(r.onClosed, x, OwnerDefault)
    requires forall x :: x in g.all && c in w[x].dependents && Addressed(w[c].onClosed, x, DependencyDefault) ==> Addressed(r.onClosed, x, DependencyDefault)
    ensures Inv(g, w[c := r])
  {
    hide Settled, Tidy, AllDoneOnce, Addressed, Distinct;
    var v := w[c := r];
    forall x | x in g.all ensures Sound(g, v, x) {
      assert Sound(g, w, x);
    }
    OthersSettled(g, w, c, r);
    SettledSame(w, v, c);
  }

  lemma SettledSame<R>(w: World<R>, v: World<R>, x: R)
    requires w.Keys == v.Keys && x in w && Settled(w, x)
    requires forall y :: y in w ==> (v[y].state == Closed <==> w[y].state == Closed)
    requires v[x].state == w[x].state && v[x].action == w[x].action && v[x].runs == w[x].runs && v[x].backlog == w[x].backlog
    requires v[x].underlying == w[x].underlying && v[x].dependents == w[x].dependents
    ensures Settled(v, x)
  {
  }

  lemma AddressedStays<R>(p: seq<Item<R>>, it: Item<R>, s: seq<Item<R>>, x: R, cb: Callback)
    requires it.who != Resource(x)
    ensures Addressed(p + [it] + s, x, cb) ==> Addressed(p + s, x, cb)
  {
    var q := p + [it] + s;
    if i :| 0 <= i < |q| && q[i].who == Resource(x) && q[i].cb == cb {
      var j := if i < |p| then i else i - 1;
      assert (p + s)[j] == q[i];
    }
  }

  /** The counters play no part in the structural invariants. */
  lemma CountersKeepSound<R>(g: Graph<R>, w: World<R>, x: R, runs: nat, backlog: nat)
    requires Keyed(g) && x in g.all && Base(g, w)
    ensures Base(g, w[x := w[x].(runs := runs, backlog := backlog)])
  {
    var v := w[x := w[x].(runs := runs, backlog := backlog)];
    assert Sound(g, v, x) by {
      assert Sound(g, w, x);
    }
    OthersSound(g, w, x, v[x]);
  }

  /** Starting the own action of a resource that is ready. */
  lemma StartKeepsInv<R>(g: Graph<R>, w: World<R>, x: R)
    requires Keyed(g) && x in g.all && InvReady(g, w, x)
    ensures var v := w[x := StartRes(w[x])];
            if w[x].action == Immediate then InvActed(g, v, x) else Inv(g, v)
  {
    var v := w[x := StartRes(w[x])];
    CountersKeepSound(g, w, x, v[x].runs, v[x].backlog);
    assert BlockersClosed(v, x);
    forall y | y in g.all ensures y != x ==> Settled(v, y) {
      assert y != x ==> Settled(w, y);
    }
  }

  // ----- Progress between two moments of a run -----

  /** How one resource may change: its state only moves forward; what is counted
      at the first start of its own action stays; its subscriptions stay as they are until it closes; once the announcements of a newly closed
      resource are made, each of its subscribers has been called exactly once, in
      order, and only those who have not acknowledged yet are left. */
  ghost predicate Advanced<R>(r: Res<R>, s: Res<R>) {
    && s.action == r.action && r.runs <= s.runs
    && (r.runs > 0 ==> s.backlog == r.backlog)
    && (r.state == Closed ==>
          s.state == Closed && s.onClosed == r.onClosed && s.notified == r.notified
          && s.onAllDone == r.onAllDone && s.allDoneLog == r.allDoneLog && s.fired == r.fired
          && s.runs == r.runs && s.backlog == r.backlog)
    && (r.state == Closing ==> s.state != Alive)
    && (s.state != Closed ==>
          s.onClosed == r.onClosed && s.notified == r.notified
          && s.onAllDone == r.onAllDone && s.allDoneLog == r.allDoneLog)
    && (r.state != Closed && s.state == Closed ==>
          && s.notified == r.notified + r.onClosed
          && s.onClosed == Unacked(r.onClosed)
          && (if s.onClosed == [] then s.onAllDone == [] && s.allDoneLog == r.allDoneLog + r.onAllDone
              else s.onAllDone == r.onAllDone && s.allDoneLog == r.allDoneLog))
  }

  /** The lists of `x` only shrink, in their order, and what was closed at the first moment is
      not crossed off in between, except possibly `but`. */
  ghost predicate ListsShrink<R>(w: World<R>, v: World<R>, x: R, but: set<R>)
    requires w.Keys == v.Keys && x in w
  {
    && LeftOf(v[x].underlying, w[x].underlying)
    && LeftOf(v[x].dependents, w[x].dependents)
    && (forall c :: c in w[x].underlying && c !in but && c in w && w[c].state == Closed ==> c in v[x].underlying)
    && (forall c :: c in w[x].dependents && c !in but && c in w && w[c].state == Closed ==> c in v[x].dependents)
  }

  ghost predicate Progress<R>(w: World<R>, v: World<R>) {
    && w.Keys == v.Keys
    && (forall x {:trigger Advanced(w[x], v[x])} :: x in w ==> Advanced(w[x], v[x]))
    && (forall x {:trigger ListsShrink(w, v, x, {})} :: x in w ==> ListsShrink(w, v, x, {}))
  }

  /** The resources alive at the first moment are the ones alive at the second. */
  ghost predicate SameAlive<R>(w: World<R>, v: World<R>)
    requires w.Keys == v.Keys
  {
    forall x :: x in w ==> (w[x].state == Alive <==> v[x].state == Alive)
  }

  lemma ProgressTransitive<R>(u: World<R>, w: World<R>, v: World<R>)
    requires Progress(u, w) && Progress(w, v)
    ensures Progress(u, v)
    ensures SameAlive(u, w) && SameAlive(w, v) ==> SameAlive(u, v)
  {
    hide ListsShrink;
    forall x | x in u ensures Advanced(u[x], v[x]) && ListsShrink(u, v, x, {}) {
      assert Advanced(u[x], w[x]) && Advanced(w[x], v[x]);
      assert ListsShrink(u, w, x, {}) && ListsShrink(w, v, x, {});
      forall c | c in u && u[c].state == Closed ensures w[c].state == Closed {
        assert Advanced(u[c], w[c]);
      }
      ShrinkTransitive(u, w, v, x, {});
    }
  }

  function InState<R(==)>(w: World<R>, st: State): set<R> {
    set x | x in w && w[x].state == st
  }

  lemma SameStates<R>(w: World<R>, v: World<R>)
    requires w.Keys == v.Keys && forall x :: x in w ==> v[x].state == w[x].state
    ensures InState(v, Alive) == InState(w, Alive) && InState(v, Closing) == InState(w, Closing)
  {
  }

  /** What `w` and `v` have in common when the closed resource `c` has served its
      subscription number `k` in between: only that subscription is gone, and the
      subscriber has crossed `c` off. */
  ghost predicate Served<R>(w: World<R>, v: World<R>, c: R, k: nat) {
    && w.Keys == v.Keys && c in w && k < |w[c].onClosed| && w[c].state == Closed
    && v[c].state == Closed && v[c].action == w[c].action && v[c].runs == w[c].runs && v[c].backlog == w[c].backlog && v[c].notified == w[c].notified
    && v[c].onClosed == w[c].onClosed[..k] + w[c].onClosed[k + 1..]
    && (if v[c].onClosed == [] then v[c].onAllDone == [] && v[c].allDoneLog == w[c].allDoneLog + w[c].onAllDone
        else v[c].onAllDone == w[c].onAllDone && v[c].allDoneLog == w[c].allDoneLog)
    && SameAlive(w, v)
    && (forall x {:trigger Advanced(w[x], v[x])} :: x in w && x != c ==> Advanced(w[x], v[x]))
    && (forall x {:trigger Crossed(w, v, x, c, w[c].onClosed[k])} :: x in w ==> Crossed(w, v, x, c, w[c].onClosed[k]))
  }

  ghost predicate Crossed<R>(w: World<R>, v: World<R>, x: R, c: R, it: Item<R>)
    requires w.Keys == v.Keys && x in w
  {
    ListsShrink(w, v, x, if it.who == Resource(x) then {c} else {})
  }

  // ----- Announcing 'closed' -----

  /** Is `x` still listed by the subscriber it has to call? */
  ghost predicate Listed<R>(w: World<R>, x: R, it: Item<R>) {
    match it.cb
    case OwnerDefault => it.who.Resource? && it.who.res in w && x in w[it.who.res].underlying
    case DependencyDefault => it.who.Resource? && it.who.res in w && x in w[it.who.res].dependents
    case External(_) => true
  }

  /** The announcing resource itself, `s`, once its first `i` subscribers have been
      called; `r` is what it was before its action completed. */
  ghost predicate Announced<R>(r: Res<R>, s: Res<R>, i: nat) {
    && i <= |r.onClosed| && r.state == Closing && s.state == Closed && s.action == r.action
    && s.runs == r.runs && s.backlog == r.backlog
    && s.onClosed == Unacked(r.onClosed[..i]) + r.onClosed[i..]
    && s.notified == r.notified + r.onClosed[..i]
    && (if s.onClosed == [] then s.onAllDone == [] && s.allDoneLog == r.allDoneLog + r.onAllDone
        else s.onAllDone == r.onAllDone && s.allDoneLog == r.allDoneLog)
  }

  ghost predicate OthersProgress<R>(a: World<R>, w: World<R>, x: R) {
    && w.Keys == a.Keys && SameAlive(a, w)
    && (forall y {:trigger Advanced(a[y], w[y])} :: y in a && y != x ==> Advanced(a[y], w[y]))
    && (forall y {:trigger ListsShrink(a, w, y, {})} :: y in a ==> ListsShrink(a, w, y, {}))
  }

  /** The loop of `action_to_close_myself_done`: `a` is the world before the
      action of `x` completed, `w` the world once the first `i` subscribers of
      `x` have been called. */
  ghost predicate Announcing<R>(g: Graph<R>, a: World<R>, w: World<R>, x: R, i: nat)
    requires Keyed(g) && x in g.all && a.Keys == g.all
  {
    && Inv(g, w) && Announced(a[x], w[x], i) && OthersProgress(a, w, x)
    && (forall j :: i <= j < |a[x].onClosed| ==> Listed(w, x, a[x].onClosed[j]))
  }

  lemma AnnounceStart<R>(g: Graph<R>, a: World<R>, x: R)
    requires Keyed(g) && x in g.all && InvActed(g, a, x)
    ensures Base(g, a) && Announcing(g, a, a[x := CloseRes(a[x])], x, 0)
  {
    var w := a[x := CloseRes(a[x])];
    CloseKeepsInv(g, a, x);
    var q := a[x].onClosed;
    assert Unacked(q[..0]) + q[0..] == q;
    forall j | 0 <= j < |q| ensures Listed(w, x, q[j]) {
      assert Sound(g, a, x) && q[j] in q && GoodItem(g, x, q[j]);
      if q[j].who.Resource? {
        assert BottomUp(g, a, q[j].who.res) by {
          assert Sound(g, a, q[j].who.res);
        }
      }
    }
  }

  lemma AnnounceEnd<R>(g: Graph<R>, a: World<R>, w: World<R>, x: R)
    requires Keyed(g) && x in g.all && a.Keys == g.all && Announcing(g, a, w, x, |a[x].onClosed|)
    ensures Inv(g, w) && Progress(a, w) && SameAlive(a, w) && w[x].state == Closed
  {
    var q := a[x].onClosed;
    assert q[..|q|] == q && Unacked(q) + q[|q|..] == Unacked(q);
  }

  lemma AnnounceMeasure<R>(g: Graph<R>, a: World<R>, w: World<R>, x: R, i: nat)
    requires Keyed(g) && x in g.all && a.Keys == g.all && Announcing(g, a, w, x, i)
    ensures InState(w, Alive) == InState(a, Alive) && InState(w, Closing) < InState(a, Closing)
  {
    forall y | y in w && w[y].state == Closing ensures a[y].state == Closing {
      assert y != x ==> Advanced(a[y], w[y]);
    }
    assert x in InState(a, Closing) && x !in InState(w, Closing);
  }

  lemma NotifyKeepsInv<R>(g: Graph<R>, w: World<R>, x: R, log: seq<Item<R>>)
    requires Keyed(g) && x in g.all && Inv(g, w) && w[x].state == Closed
    ensures Inv(g, w[x := w[x].(notified := log)])
  {
    hide Settled;
    var v := w[x := w[x].(notified := log)];
    assert Sound(g, v, x) by {
      assert Sound(g, w, x);
    }
    OthersSound(g, w, x, v[x]);
    OthersSettled(g, w, x, v[x]);
    SettledSame(w, v, x);
  }

  lemma UnackedStep<R>(q: seq<Item<R>>, i: nat)
    requires i < |q|
    ensures Unacked(q[..i + 1]) == if Owes(q[i]) then Unacked(q[..i]) + [q[i]] else Unacked(q[..i])
    ensures Unacked(q[..i]) + q[i..] == Unacked(q[..i]) + [q[i]] + q[i + 1..]
  {
    var r := q[..i + 1];
    assert r[..|r| - 1] == q[..i];
  }

  lemma OthersServed<R>(a: World<R>, w: World<R>, v: World<R>, x: R, k: nat)
    requires x in a && OthersProgress(a, w, x) && Served(w, v, x, k) && a[x].state == Closing
    ensures OthersProgress(a, v, x)
  {
    forall y | y in a && y != x ensures Advanced(a[y], v[y]) {
      assert Advanced(a[y], w[y]) && Advanced(w[y], v[y]);
    }
    forall y | y in a ensures ListsShrink(a, v, y, {}) {
      hide Served, Advanced;
      assert ListsShrink(a, w, y, {}) && Crossed(w, v, y, x, w[x].onClosed[k]);
      LeftOfTransitive(a[y].underlying, w[y].underlying, v[y].underlying);
      LeftOfTransitive(a[y].dependents, w[y].dependents, v[y].dependents);
      forall c | c in a && a[c].state == Closed ensures w[c].state == Closed && c != x {
        ClosedAmongOthers(a, w, x, c);
      }
    }
  }

  lemma ClosedAmongOthers<R>(a: World<R>, w: World<R>, x: R, c: R)
    requires x in a && OthersProgress(a, w, x) && a[x].state == Closing && c in a && a[c].state == Closed
    ensures w[c].state == Closed && c != x
  {
    assert c != x ==> Advanced(a[c], w[c]);
  }

  lemma SelfServed<R>(r: Res<R>, s: Res<R>, i: nat)
    requires Announced(r, s, i) && i < |r.onClosed|
    ensures var k := |Unacked(r.onClosed[..i])|;
            k < |s.onClosed| && s.onClosed[k] == r.onClosed[i]
            && Unacked(r.onClosed[..i + 1]) + r.onClosed[i + 1..]
               == (if Owes(r.onClosed[i]) then s.onClosed else s.onClosed[..k] + s.onClosed[k + 1..])
    ensures s.notified + [r.onClosed[i]] == r.notified + r.onClosed[..i + 1]
  {
    UnackedStep(r.onClosed, i);
    assert r.onClosed[..i + 1] == r.onClosed[..i] + [r.onClosed[i]];
  }

  lemma OthersNotified<R>(a: World<R>, w: World<R>, x: R, log: seq<Item<R>>)
    requires x in a && OthersProgress(a, w, x)
    ensures OthersProgress(a, w[x := w[x].(notified := log)], x)
  {
    hide Advanced;
    var v := w[x := w[x].(notified := log)];
    forall y | y in a && y != x ensures Advanced(a[y], v[y]) {
      assert Advanced(a[y], w[y]);
    }
    forall y | y in a ensures ListsShrink(a, v, y, {}) {
      assert ListsShrink(a, w, y, {});
    }
  }

  lemma ListedNotified<R>(w: World<R>, x: R, log: seq<Item<R>>, it: Item<R>)
    requires x in w
    ensures Listed(w[x := w[x].(notified := log)], x, it) <==> Listed(w, x, it)
  {
  }

  /** The next subscriber to call is still subscribed, and still lists `x`. */
  lemma AnnounceNext<R>(g: Graph<R>, a: World<R>, w: World<R>, x: R, i: nat)
    requires Keyed(g) && x in g.all && a.Keys == g.all && Announcing(g, a, w, x, i) && i < |a[x].onClosed|
    ensures var it := a[x].onClosed[i];
            var u := w[x := w[x].(notified := w[x].notified + [it])];
            var k := |Unacked(a[x].onClosed[..i])|;
            && Inv(g, u) && u[x].state == Closed && k < |u[x].onClosed| && u[x].onClosed[k] == it && Listed(u, x, it)
            && InState(u, Alive) == InState(a, Alive) && InState(u, Closing) < InState(a, Closing)
  {
    var it := a[x].onClosed[i];
    SelfServed(a[x], w[x], i);
    NotifyKeepsInv(g, w, x, w[x].notified + [it]);
    ListedNotified(w, x, w[x].notified + [it], it);
    AnnounceMeasure(g, a, w, x, i);
    var u := w[x := w[x].(notified := w[x].notified + [it])];
    assert InState(u, Alive) == InState(w, Alive) && InState(u, Closing) == InState(w, Closing);
  }

  /** One subscriber has been called and has acknowledged. */
  lemma AnnounceServed<R>(g: Graph<R>, a: World<R>, w: World<R>, v: World<R>, x: R, i: nat)
    requires Keyed(g) && x in g.all && a.Keys == g.all && Base(g, a)
    requires Announcing(g, a, w, x, i) && i < |a[x].onClosed| && !Owes(a[x].onClosed[i])
    requires Inv(g, v)
    requires var q := a[x].onClosed;
             Served(w[x := w[x].(notified := w[x].notified + [q[i]])], v, x, |Unacked(q[..i])|)
    ensures Announcing(g, a, v, x, i + 1)
  {
    var q := a[x].onClosed;
    var u := w[x := w[x].(notified := w[x].notified + [q[i]])];
    SelfServed(a[x], w[x], i);
    OthersNotified(a, w, x, u[x].notified);
    OthersServed(a, u, v, x, |Unacked(q[..i])|);
    assert Announced(a[x], v[x], i + 1);
    forall j | i <= j < |q| ensures Listed(u, x, q[j]) {
      ListedNotified(w, x, u[x].notified, q[j]);
    }
    AnnounceListed(g, a, u, v, x, i);
  }

  lemma AnnounceListed<R>(g: Graph<R>, a: World<R>, w: World<R>, v: World<R>, x: R, i: nat)
    requires Keyed(g) && x in g.all && a.Keys == g.all == w.Keys == v.Keys && Base(g, a)
    requires i < |a[x].onClosed| && w[x].state == Closed
    requires forall y :: y in w ==> Crossed(w, v, y, x, a[x].onClosed[i])
    requires forall j :: i <= j < |a[x].onClosed| ==> Listed(w, x, a[x].onClosed[j])
    ensures forall j :: i + 1 <= j < |a[x].onClosed| ==> Listed(v, x, a[x].onClosed[j])
  {
    var q := a[x].onClosed;
    assert Sound(g, a, x);
    forall j | i + 1 <= j < |q| ensures Listed(v, x, q[j]) {
      assert Listed(w, x, q[j]) && GoodItem(g, x, q[j]);
      if q[j].who.Resource? {
        assert q[i].who != q[j].who;
        assert Crossed(w, v, q[j].who.res, x, q[i]);
      }
    }
  }

  /** One subscriber has been called and will acknowledge later. */
  lemma AnnounceOwed<R>(g: Graph<R>, a: World<R>, w: World<R>, x: R, i: nat)
    requires Keyed(g) && x in g.all && a.Keys == g.all && Base(g, a)
    requires Announcing(g, a, w, x, i) && i < |a[x].onClosed| && Owes(a[x].onClosed[i])
    ensures Announcing(g, a, w[x := w[x].(notified := w[x].notified + [a[x].onClosed[i]])], x, i + 1)
  {
    var q := a[x].onClosed;
    var v := w[x := w[x].(notified := w[x].notified + [q[i]])];
    NotifyKeepsInv(g, w, x, v[x].notified);
    SelfServed(a[x], w[x], i);
    OthersNotified(a, w, x, v[x].notified);
    forall j | i <= j < |q| ensures Listed(v, x, q[j]) {
      ListedNotified(w, x, v[x].notified, q[j]);
    }
  }

  /** A subscriber that is no resource acknowledges within its callback. */
  lemma AckServes<R>(w: World<R>, c: R, k: nat)
    requires c in w && w[c].state == Closed && k < |w[c].onClosed|
    requires RemoveItem(w[c].onClosed, w[c].onClosed[k].who, w[c].onClosed[k].data) == w[c].onClosed[..k] + w[c].onClosed[k + 1..]
    ensures Served(w, w[c := AckRes(w[c], w[c].onClosed[k].who, w[c].onClosed[k].data)], c, k)
  {
  }

  lemma StepProgress<R>(w: World<R>)
    ensures Progress(w, w) && SameAlive(w, w)
  {
    forall x | x in w ensures Advanced(w[x], w[x]) && ListsShrink(w, w, x, {}) {
    }
  }

  lemma StartProgress<R>(w: World<R>, x: R)
    requires x in w && w[x].state == Closing
    ensures Progress(w, w[x := StartRes(w[x])]) && SameAlive(w, w[x := StartRes(w[x])])
    ensures InState(w[x := StartRes(w[x])], Alive) == InState(w, Alive)
    ensures InState(w[x := StartRes(w[x])], Closing) == InState(w, Closing)
  {
    var v := w[x := StartRes(w[x])];
    SameStates(w, v);
    hide LeftOf, InState;
    forall y | y in w ensures Advanced(w[y], v[y]) && ListsShrink(w, v, y, {}) {
      AllLeft(w[y].underlying);
      AllLeft(w[y].dependents);
      if y != x {
        assert v[y] == w[y];
      }
    }
  }

  lemma AllLeft<T>(s: seq<T>)
    ensures LeftOf(s, s)
  {
  }

  lemma ShrinkTransitive<R>(w: World<R>, v: World<R>, u: World<R>, x: R, but: set<R>)
    requires w.Keys == v.Keys == u.Keys && x in w
    requires ListsShrink(w, v, x, but) && ListsShrink(v, u, x, but)
    requires forall e :: e in w && w[e].state == Closed ==> v[e].state == Closed
    ensures ListsShrink(w, u, x, but)
  {
    LeftOfTransitive(w[x].underlying, v[x].underlying, u[x].underlying);
    LeftOfTransitive(w[x].dependents, v[x].dependents, u[x].dependents);
  }

  /** An owner or dependency `o` crossing off `c`, then whatever that starts, then
      the acknowledgement amount to serving one subscription of `c`. */
  lemma UnlinkServes<R>(w: World<R>, v: World<R>, u: World<R>, z: World<R>, o: R, c: R, k: nat)
    requires o in w && c in w && o != c && w[c].state == Closed && k < |w[c].onClosed| && w[c].onClosed[k].who == Resource(o)
    requires v.Keys == w.Keys && v[o] == w[o].(underlying := v[o].underlying, dependents := v[o].dependents)
    requires forall y :: y in w && y != o ==> v[y] == w[y]
    requires ListsShrink(w, v, o, {c})
    requires Progress(v, u) && SameAlive(v, u) && Served(u, z, c, k)
    ensures Served(w, z, c, k)
  {
    hide ListsShrink, Crossed;
    var it := w[c].onClosed[k];
    assert Advanced(v[c], u[c]);
    forall x | x in w && x != c ensures Advanced(w[x], z[x]) {
      assert Advanced(v[x], u[x]) && Advanced(u[x], z[x]);
    }
    forall x | x in w ensures Crossed(w, z, x, c, it) {
      UnlinkCrosses(w, v, u, z, o, c, it, x);
    }
  }

  lemma ClosedStays<R>(w: World<R>, v: World<R>)
    requires Progress(w, v)
    ensures forall e :: e in w && w[e].state == Closed ==> v[e].state == Closed
  {
    hide ListsShrink;
    forall e | e in w && w[e].state == Closed ensures v[e].state == Closed {
      assert Advanced(w[e], v[e]);
    }
  }

  lemma UnlinkCrosses<R>(w: World<R>, v: World<R>, u: World<R>, z: World<R>, o: R, c: R, it: Item<R>, x: R)
    requires o in w && x in w && it.who == Resource(o)
    requires v.Keys == w.Keys && v[o].state == w[o].state && forall y :: y in w && y != o ==> v[y] == w[y]
    requires ListsShrink(w, v, o, {c})
    requires Progress(v, u) && u.Keys == z.Keys && Crossed(u, z, x, c, it)
    ensures Crossed(w, z, x, c, it)
  {
    hide Advanced, ListsShrink;
    var but := if it.who == Resource(x) then {c} else {};
    ClosedStays(v, u);
    assert ListsShrink(v, u, x, {});
    ShrinkLess(v, u, x, but);
    if x == o {
      assert but == {c};
    } else {
      SameLists(w, v, x, but);
    }
    ShrinkTransitive(w, v, u, x, but);
    ShrinkTransitive(w, u, z, x, but);
  }

  lemma ShrinkLess<R>(w: World<R>, v: World<R>, x: R, but: set<R>)
    requires w.Keys == v.Keys && x in w && ListsShrink(w, v, x, {})
    ensures ListsShrink(w, v, x, but)
  {
  }

  lemma SameLists<R>(w: World<R>, v: World<R>, x: R, but: set<R>)
    requires w.Keys == v.Keys && x in w && v[x] == w[x]
    ensures ListsShrink(w, v, x, but)
  {
  }

  lemma ItemIsGood<R>(g: Graph<R>, w: World<R>, x: R, k: nat)
    requires Keyed(g) && x in g.all && Inv(g, w) && k < |w[x].onClosed|
    ensures GoodItem(g, x, w[x].onClosed[k])
  {
    assert Sound(g, w, x);
  }

  lemma ListsRegistered<R>(g: Graph<R>, w: World<R>, o: R)
    requires Keyed(g) && o in g.all && Inv(g, w)
    ensures w.Keys == g.all && Distinct(w[o].underlying) && Distinct(w[o].dependents)
    ensures forall k :: k in w[o].underlying ==> k in g.kids[o]
    ensures forall d :: d in w[o].dependents ==> d in g.deps[o]
  {
    assert Sound(g, w, o);
  }

  lemma ListedOnce<R>(g: Graph<R>, w: World<R>, o: R, c: R)
    requires WellFormed(g) && o in g.all && Inv(g, w)
    requires c in w[o].underlying || c in w[o].dependents
    ensures w.Keys == g.all && Distinct(w[o].underlying) && Distinct(w[o].dependents) && o != c
    ensures c in w[o].underlying ==> c !in w[o].dependents
    ensures c in w[o].dependents ==> c in g.deps[o]
  {
    hide Inv, Owned;
    WellFormedKeyed(g);
    ListsRegistered(g, w, o);
    BlockerRank(g, o, c);
  }

  lemma CrossShrinks<R>(w: World<R>, o: R, c: R, r: Res<R>)
    requires o in w
    requires r.underlying == w[o].underlying || (Unlinked(w[o].underlying, c, r.underlying) && LeftOf(r.underlying, w[o].underlying))
    requires r.dependents == w[o].dependents || (Unlinked(w[o].dependents, c, r.dependents) && LeftOf(r.dependents, w[o].dependents))
    ensures ListsShrink(w, w[o := r], o, {c})
  {
  }

  /** The owner `o` of `c` crosses off `c`. */
  lemma KidUnlinked<R>(g: Graph<R>, w: World<R>, o: R, c: R)
    requires WellFormed(g) && o in g.all && c in g.all && Inv(g, w)
    requires w[c].state == Closed && c in w[o].underlying
    ensures var v := w[o := w[o].(underlying := RemovePtr(w[o].underlying, c))];
            && InvBut(g, v, o) && ListsShrink(w, v, o, {c}) && o != c
            && c !in v[o].underlying && c !in v[o].dependents
            && InState(v, Alive) == InState(w, Alive) && InState(v, Closing) == InState(w, Closing)
  {
    hide Inv, InvBut, Owned, Keyed, InState, WellFormed, RemovePtr, Distinct, ListsShrink, LeftOf;
    WellFormedKeyed(g);
    ListedOnce(g, w, o, c);
    var u := RemovePtr(w[o].underlying, c);
    RemovePtrElements(w[o].underlying, c);
    RemovePtrLeft(w[o].underlying, c);
    UnlinkKid(g, w, o, c, u);
    SameStates(w, w[o := w[o].(underlying := u)]);
    CrossShrinks(w, o, c, w[o].(underlying := u));
  }

  /** The dependency `o` of `c` crosses off `c`. */
  lemma DependentUnlinked<R>(g: Graph<R>, w: World<R>, o: R, c: R)
    requires WellFormed(g) && o in g.all && c in g.all && Inv(g, w)
    requires w[c].state == Closed && c in w[o].dependents
    ensures c in g.deps[o]
    ensures var v := w[o := w[o].(dependents := RemovePtr(w[o].dependents, c))];
            && InvBut(g, v, o) && ListsShrink(w, v, o, {c}) && o != c
            && c !in v[o].underlying && c !in v[o].dependents
            && InState(v, Alive) == InState(w, Alive) && InState(v, Closing) == InState(w, Closing)
  {
    hide Inv, InvBut, Owned, Keyed, InState, WellFormed, RemovePtr, Distinct, ListsShrink, LeftOf;
    WellFormedKeyed(g);
    ListedOnce(g, w, o, c);
    var u := RemovePtr(w[o].dependents, c);
    RemovePtrElements(w[o].dependents, c);
    RemovePtrLeft(w[o].dependents, c);
    UnlinkDependent(g, w, o, c, u);
    SameStates(w, w[o := w[o].(dependents := u)]);
    CrossShrinks(w, o, c, w[o].(dependents := u));
  }

  /** A resource holds no subscription of something that depends on it. */
  lemma NoMutualItem<R>(g: Graph<R>, w: World<R>, o: R, c: R)
    requires WellFormed(g) && o in g.all && c in g.deps[o] && (InvBut(g, w, o) || Inv(g, w))
    ensures WithoutWho(w[o].onClosed, Resource(c)) == w[o].onClosed
    ensures WithoutWho(w[o].onAllDone, Resource(c)) == w[o].onAllDone
  {
    if o in g.kids[c] {
      BlockerRank(g, c, o);
    }
    assert Sound(g, w, o);
    BlockerRank(g, o, c);
    forall it | it in w[o].onClosed ensures it.who != Resource(c) {
      assert GoodItem(g, o, it);
      if it.who == Resource(c) {
        BlockerRank(g, c, o);
      }
    }
  }

  lemma UnlinkedStays<R>(g: Graph<R>, v: World<R>, u: World<R>, o: R, c: R)
    requires o in v && c in v && Progress(v, u) && v[c].state == Closed
    requires c !in v[o].underlying && c !in v[o].dependents
    ensures c !in u[o].underlying && c !in u[o].dependents
    ensures u[c].state == Closed && u[c].onClosed == v[c].onClosed
  {
    assert ListsShrink(v, u, o, {}) && Advanced(v[c], u[c]);
  }
}
