/**
 Registration: how owners, dependencies and subscribers are recorded, and why
 that establishes and keeps the invariants the closing protocol relies on.
 */
module ClosingRegistration {
  import opened ClosingGraph
  import opened ClosingInvariant

  function Fresh<R>(action: Action): Res<R> {
    Res(Alive, action, [], [], [], [], 0, 0, [], [], 0)
  }

  /** `h` is `g` and the unrelated resource `x`. */
  ghost predicate Joins<R>(g: Graph<R>, h: Graph<R>, x: R) {
    && x !in g.all && h.all == g.all + {x}
    && h.kids == g.kids[x := []] && h.deps == g.deps[x := []] && h.owner == g.owner
  }

  /** `h` is `g` and the ownership of `k` by `x`. */
  ghost predicate AddsKid<R>(g: Graph<R>, h: Graph<R>, x: R, k: R) {
    && x in g.all && k in g.all && h.all == g.all && g.kids.Keys == g.all
    && h.kids == g.kids[x := g.kids[x] + [k]] && h.deps == g.deps
  }

  /** `h` is `g` and the dependency of `d` on `x`. */
  ghost predicate AddsDependent<R>(g: Graph<R>, h: Graph<R>, x: R, d: R) {
    && x in g.all && d in g.all && h.all == g.all && g.deps.Keys == g.all
    && h.kids == g.kids && h.deps == g.deps[x := g.deps[x] + [d]]
  }

  /** `h` is `g` without the dependency of `d` on `x`. */
  ghost predicate DropsDependent<R>(g: Graph<R>, h: Graph<R>, x: R, d: R) {
    && x in g.all && d in g.all && h.all == g.all && g.deps.Keys == g.all
    && d in g.deps[x]
    && h.kids == g.kids && h.deps == g.deps[x := RemovePtr(g.deps[x], d)] && h.owner == g.owner && h.rank == g.rank && h.top == g.top
  }

  /** Closing has not gone so far that `x` may no longer be given anything to wait for. */
  ghost predicate MayWait<R>(r: Res<R>) {
    r.state != Closed && r.runs == 0
  }

  lemma NothingRegistered<R>(g: Graph<R>)
    requires g.all == {} && g.kids == map[] && g.deps == map[] && g.owner == map[] && g.rank == map[]
    ensures WellFormed(g) && Inv(g, map[])
  {
  }

  lemma JoinKeepsInv<R>(g: Graph<R>, h: Graph<R>, w: World<R>, x: R, action: Action)
    requires WellFormed(g) && WellFormed(h) && Joins(g, h, x) && Inv(g, w)
    ensures Inv(h, w[x := Fresh(action)])
  {
    hide WellFormed, Owned, Sound, Settled, Fresh;
    WellFormedKeyed(g);
    WellFormedKeyed(h);
    var v := w[x := Fresh(action)];
    assert v.Keys == h.all;
    forall y | y in h.all ensures Sound(h, v, y) && Settled(v, y) {
      JoinSound(g, h, w, x, action, y);
    }
  }

  lemma JoinSound<R>(g: Graph<R>, h: Graph<R>, w: World<R>, x: R, action: Action, y: R)
    requires Keyed(g) && Keyed(h) && Joins(g, h, x) && Inv(g, w) && y in h.all
    ensures Sound(h, w[x := Fresh(action)], y) && Settled(w[x := Fresh(action)], y)
  {
    hide Tidy, Distinct, Addressed, AllDoneOnce;
    if y != x {
      assert Sound(g, w, y) && Settled(w, y);
      GrownTidy(g, h, y, w[y]);
    } else {
      FreshSound(h, w[x := Fresh(action)], x, action);
    }
  }

  lemma FreshSound<R>(g: Graph<R>, w: World<R>, x: R, action: Action)
    requires Keyed(g) && w.Keys == g.all && x in g.all && g.kids[x] == [] == g.deps[x] && w[x] == Fresh(action)
    ensures Sound(g, w, x)
  {
  }

  lemma AddressedGrows<R>(q: seq<Item<R>>, more: seq<Item<R>>, x: R, cb: Callback)
    ensures Addressed(q, x, cb) ==> Addressed(q + more, x, cb)
  {
    if i :| 0 <= i < |q| && q[i].who == Resource(x) && q[i].cb == cb {
      assert (q + more)[i] == q[i];
    }
  }

  lemma AddressedLast<R>(q: seq<Item<R>>, it: Item<R>, x: R)
    requires it.who == Resource(x)
    ensures Addressed(q + [it], x, it.cb)
  {
    assert (q + [it])[|q|] == it;
  }

  /** What one registration does to every resource: the graph and the queues only grow. */
  ghost predicate Grown<R>(g: Graph<R>, h: Graph<R>, w: World<R>, v: World<R>)
    requires Keyed(g) && Keyed(h)
  {
    && g.all == h.all == w.Keys == v.Keys
    && (forall y {:trigger v[y]} :: y in g.all ==> GrownRes(w[y], v[y]))
    && (forall y, c :: y in g.all && c in g.kids[y] ==> c in h.kids[y])
    && (forall y, c :: y in g.all && c in g.deps[y] ==> c in h.deps[y])
  }

  ghost predicate GrownRes<R>(r: Res<R>, s: Res<R>) {
    && s == r.(underlying := s.underlying, dependents := s.dependents, onClosed := s.onClosed, onAllDone := s.onAllDone)
    && r.onClosed <= s.onClosed && r.onAllDone <= s.onAllDone
  }

  /** Whoever `y` listed still holds its subscription. */
  lemma GrownRegistered<R>(g: Graph<R>, h: Graph<R>, w: World<R>, v: World<R>, y: R)
    requires Keyed(g) && Keyed(h) && Grown(g, h, w, v) && y in g.all && Registered(g, w, y)
    ensures forall k :: k in w[y].underlying ==> k in h.kids[y] && Addressed(v[k].onClosed, y, OwnerDefault)
    ensures forall d :: d in w[y].dependents ==> d in h.deps[y] && Addressed(v[d].onClosed, y, DependencyDefault)
  {
    hide Addressed, Distinct;
    forall c | c in w[y].underlying || c in w[y].dependents
      ensures c in g.all
      ensures Addressed(w[c].onClosed, y, OwnerDefault) ==> Addressed(v[c].onClosed, y, OwnerDefault)
      ensures Addressed(w[c].onClosed, y, DependencyDefault) ==> Addressed(v[c].onClosed, y, DependencyDefault)
    {
      assert GrownRes(w[c], v[c]);
      GrownAddressed(w[c], v[c], y);
    }
  }

  lemma GrownAddressed<R>(r: Res<R>, s: Res<R>, y: R)
    requires GrownRes(r, s)
    ensures Addressed(r.onClosed, y, OwnerDefault) ==> Addressed(s.onClosed, y, OwnerDefault)
    ensures Addressed(r.onClosed, y, DependencyDefault) ==> Addressed(s.onClosed, y, DependencyDefault)
  {
    hide Addressed;
    var more := s.onClosed[|r.onClosed|..];
    assert s.onClosed == r.onClosed + more;
    AddressedGrows(r.onClosed, more, y, OwnerDefault);
    AddressedGrows(r.onClosed, more, y, DependencyDefault);
  }

  /** A subscriber may be added unless it is there already. */
  lemma SubscribeTidy<R>(g: Graph<R>, y: R, r: Res<R>, it: Item<R>, done: seq<Item<R>>)
    requires Keyed(g) && Tidy(g, y, r) && GoodItem(g, y, it)
    requires forall e :: e in r.onClosed ==> e.who != it.who || (e.who.Outside? && e.data != it.data)
    requires forall e :: e in done ==> e.who.Outside? || (e.who.res in g.all && y in g.kids[e.who.res])
    ensures Tidy(g, y, r.(onClosed := r.onClosed + [it], onAllDone := r.onAllDone + done))
  {
    var q := r.onClosed + [it];
    forall i, j | 0 <= i < j < |q| ensures q[i].who != q[j].who || (q[i].who.Outside? && q[i].data != q[j].data) {
      assert q[i] in r.onClosed;
    }
  }

  lemma GrownTidy<R>(g: Graph<R>, h: Graph<R>, y: R, r: Res<R>)
    requires Keyed(g) && Keyed(h) && g.all <= h.all && Tidy(g, y, r)
    requires forall x, c :: x in g.all && c in g.kids[x] ==> c in h.kids[x]
    requires forall x, c :: x in g.all && c in g.deps[x] ==> c in h.deps[x]
    ensures Tidy(h, y, r)
  {
  }

  /** What `add_underlying_resource` does to the fields of owner and child. */
  function KidRegistered<R(==)>(w: World<R>, x: R, k: R, allDone: Item<R>): World<R>
    requires x in w && k in w && x != k
  {
    w[x := w[x].(underlying := w[x].underlying + [k])]
     [k := w[k].(onClosed := w[k].onClosed + [Item(Resource(x), OwnerDefault, 0)], onAllDone := w[k].onAllDone + [allDone])]
  }

  lemma Last<T>(s: seq<T>, e: T, f: T)
    ensures f in s + [e] <==> f in s || f == e
    ensures Distinct(s + [e]) <==> Distinct(s) && e !in s
  {
    assert (s + [e])[|s|] == e;
    forall i | 0 <= i < |s| ensures (s + [e])[i] == s[i] {
    }
    if Distinct(s + [e]) {
      forall i | 0 <= i < |s| ensures s[i] != e {
        assert (s + [e])[i] != (s + [e])[|s|];
      }
      forall i, j | 0 <= i < j < |s| ensures s[i] != s[j] {
        assert (s + [e])[i] != (s + [e])[j];
      }
    }
  }

  /** Before the registration `k` neither belongs to `x` nor knows `x` as a subscriber. */
  lemma NotYetKid<R>(g: Graph<R>, h: Graph<R>, w: World<R>, x: R, k: R)
    requires WellFormed(g) && WellFormed(h) && AddsKid(g, h, x, k) && Base(g, w)
    ensures x != k && k !in g.kids[x] && k !in w[x].underlying && k in h.kids[x]
    ensures forall it :: it in w[k].onClosed ==> it.who != Resource(x)
  {
    hide Owned;
    WellFormedKeyed(g);
    WellFormedKeyed(h);
    Last(g.kids[x], k, k);
    BlockerRank(h, x, k);
    assert Distinct(h.kids[x]);
    assert Sound(g, w, x) && Sound(g, w, k);
    forall it | it in w[k].onClosed ensures it.who != Resource(x) {
      assert GoodItem(g, k, it);
    }
  }

  lemma KidGrown<R>(g: Graph<R>, h: Graph<R>, w: World<R>, x: R, k: R, allDone: Item<R>)
    requires Keyed(g) && Keyed(h) && AddsKid(g, h, x, k) && w.Keys == g.all && x != k
    ensures Grown(g, h, w, KidRegistered(w, x, k, allDone))
    ensures forall y, c :: y in g.all ==> (c in h.kids[y] <==> c in g.kids[y] || (y == x && c == k))
    ensures var v := KidRegistered(w, x, k, allDone);
            forall y :: y in g.all ==> v[y].underlying == (if y == x then w[y].underlying + [k] else w[y].underlying)
  {
    forall y, c | y in g.all ensures c in h.kids[y] <==> c in g.kids[y] || (y == x && c == k) {
      Last(g.kids[x], k, c);
    }
  }

  lemma KidRegisteredKeepsInv<R>(g: Graph<R>, h: Graph<R>, w: World<R>, x: R, k: R, allDone: Item<R>)
    requires WellFormed(g) && WellFormed(h) && AddsKid(g, h, x, k) && Inv(g, w)
    requires MayWait(w[x]) && w[k].state != Closed && allDone.who == Resource(x)
    ensures x != k && Inv(h, KidRegistered(w, x, k, allDone))
  {
    hide WellFormed, Owned, Sound, Settled;
    WellFormedKeyed(g);
    WellFormedKeyed(h);
    NotYetKid(g, h, w, x, k);
    var v := KidRegistered(w, x, k, allDone);
    forall y | y in h.all ensures Sound(h, v, y) {
      KidRegisteredSound(g, h, w, x, k, allDone, y);
    }
    forall y | y in h.all ensures Settled(v, y) {
      KidRegisteredSettled(w, x, k, allDone, y);
    }
  }

  lemma KidRegisteredSettled<R>(w: World<R>, x: R, k: R, allDone: Item<R>, y: R)
    requires x in w && k in w && x != k && y in w && Settled(w, y) && MayWait(w[x]) && w[k].state != Closed
    ensures Settled(KidRegistered(w, x, k, allDone), y)
  {
  }

  lemma KidRegisteredSound<R>(g: Graph<R>, h: Graph<R>, w: World<R>, x: R, k: R, allDone: Item<R>, y: R)
    requires WellFormed(g) && WellFormed(h) && AddsKid(g, h, x, k) && Base(g, w) && y in g.all && x != k
    requires MayWait(w[x]) && w[k].state != Closed && allDone.who == Resource(x)
    ensures Sound(h, KidRegistered(w, x, k, allDone), y)
  {
    hide WellFormed, Owned, Registered, BottomUp, Tidy, Grown, Addressed;
    WellFormedKeyed(g);
    WellFormedKeyed(h);
    NotYetKid(g, h, w, x, k);
    KidGrown(g, h, w, x, k, allDone);
    assert Sound(g, w, y) && Sound(g, w, k);
    hide Base;
    KidListed(g, h, w, x, k, allDone, y);
    KidBottomUp(g, h, w, x, k, allDone, y);
    KidTidy(g, h, w, x, k, allDone, y);
  }

  lemma KidTidy<R>(g: Graph<R>, h: Graph<R>, w: World<R>, x: R, k: R, allDone: Item<R>, y: R)
    requires Keyed(g) && Keyed(h) && AddsKid(g, h, x, k) && w.Keys == g.all && x != k && y in g.all && k in h.kids[x]
    requires Tidy(g, y, w[y]) && AllDoneOnce(w[y]) && w[k].state != Closed && allDone.who == Resource(x)
    requires forall it :: it in w[k].onClosed ==> it.who != Resource(x)
    requires Grown(g, h, w, KidRegistered(w, x, k, allDone))
    ensures var r := KidRegistered(w, x, k, allDone)[y]; Tidy(h, y, r) && AllDoneOnce(r)
  {
    assert Tidy(h, y, w[y]) by {
      GrownTidy(g, h, y, w[y]);
    }
    hide Tidy, Grown;
    if y == k {
      SubscribeTidy(h, k, w[k], Item(Resource(x), OwnerDefault, 0), [allDone]);
    }
    TidyQueues(h, y, w[y], KidRegistered(w, x, k, allDone)[y]);
  }

  lemma KidListed<R>(g: Graph<R>, h: Graph<R>, w: World<R>, x: R, k: R, allDone: Item<R>, y: R)
    requires Keyed(g) && Keyed(h) && AddsKid(g, h, x, k) && w.Keys == g.all && x != k && y in g.all
    requires Registered(g, w, y) && k !in w[x].underlying && k in h.kids[x]
    requires var v := KidRegistered(w, x, k, allDone); Grown(g, h, w, v)
    ensures Registered(h, KidRegistered(w, x, k, allDone), y)
  {
    hide Addressed, Grown, Distinct;
    GrownRegistered(g, h, w, KidRegistered(w, x, k, allDone), y);
    if y == x {
      AddressedLast(w[k].onClosed, Item(Resource(x), OwnerDefault, 0), x);
      Last(w[x].underlying, k, k);
    }
  }

  lemma KidBottomUp<R>(g: Graph<R>, h: Graph<R>, w: World<R>, x: R, k: R, allDone: Item<R>, y: R)
    requires Keyed(g) && Keyed(h) && AddsKid(g, h, x, k) && w.Keys == g.all && x != k && y in g.all
    requires BottomUp(g, w, y) && w[x].state != Closed
    ensures BottomUp(h, KidRegistered(w, x, k, allDone), y)
  {
    Last(g.kids[x], k, k);
    var v := KidRegistered(w, x, k, allDone);
    if y == x {
      forall c | c in h.kids[x] && c !in v[x].underlying ensures c in g.kids[x] && c !in w[x].underlying {
        Last(g.kids[x], k, c);
        Last(w[x].underlying, k, c);
      }
    }
  }

  lemma TidyQueues<R>(g: Graph<R>, y: R, r: Res<R>, s: Res<R>)
    requires Keyed(g)
    ensures r.onClosed == s.onClosed && r.onAllDone == s.onAllDone && Tidy(g, y, r) ==> Tidy(g, y, s)
  {
  }

  /** What `add_depend_resource` does to the fields of the dependency `x` and of `d`, which depends on it. */
  function DependentRegistered<R(==)>(w: World<R>, x: R, d: R, data: int): World<R>
    requires x in w && d in w && x != d
  {
    w[x := w[x].(dependents := w[x].dependents + [d])]
     [d := w[d].(onClosed := w[d].onClosed + [Item(Resource(x), DependencyDefault, data)])]
  }

  lemma NotYetDependent<R>(g: Graph<R>, h: Graph<R>, w: World<R>, x: R, d: R)
    requires WellFormed(g) && WellFormed(h) && AddsDependent(g, h, x, d) && Base(g, w)
    ensures x != d && d !in g.deps[x] && d !in w[x].dependents && d in h.deps[x]
    ensures forall it :: it in w[d].onClosed ==> it.who != Resource(x)
  {
    hide Owned;
    WellFormedKeyed(g);
    WellFormedKeyed(h);
    Last(g.deps[x], d, d);
    BlockerRank(h, x, d);
    assert Distinct(h.deps[x]);
    assert Sound(g, w, x) && Sound(g, w, d);
    forall it | it in w[d].onClosed ensures it.who != Resource(x) {
      assert GoodItem(g, d, it);
    }
  }

  lemma DependentGrown<R>(g: Graph<R>, h: Graph<R>, w: World<R>, x: R, d: R, data: int)
    requires Keyed(g) && Keyed(h) && AddsDependent(g, h, x, d) && w.Keys == g.all && x != d
    ensures Grown(g, h, w, DependentRegistered(w, x, d, data))
  {
    forall y, c | y in g.all && c in g.deps[y] ensures c in h.deps[y] {
      Last(g.deps[x], d, c);
    }
  }

  lemma DependentRegisteredKeepsInv<R>(g: Graph<R>, h: Graph<R>, w: World<R>, x: R, d: R, data: int)
    requires WellFormed(g) && WellFormed(h) && AddsDependent(g, h, x, d) && Inv(g, w)
    requires MayWait(w[x]) && w[d].state != Closed
    ensures x != d && Inv(h, DependentRegistered(w, x, d, data))
  {
    hide WellFormed, Owned, Sound, Settled;
    WellFormedKeyed(g);
    WellFormedKeyed(h);
    NotYetDependent(g, h, w, x, d);
    var v := DependentRegistered(w, x, d, data);
    forall y | y in h.all ensures Sound(h, v, y) {
      DependentRegisteredSound(g, h, w, x, d, data, y);
    }
    forall y | y in h.all ensures Settled(v, y) {
      DependentRegisteredSettled(w, x, d, data, y);
    }
  }

  lemma DependentRegisteredSettled<R>(w: World<R>, x: R, d: R, data: int, y: R)
    requires x in w && d in w && x != d && y in w && Settled(w, y) && MayWait(w[x]) && w[d].state != Closed
    ensures Settled(DependentRegistered(w, x, d, data), y)
  {
  }

  lemma DependentRegisteredSound<R>(g: Graph<R>, h: Graph<R>, w: World<R>, x: R, d: R, data: int, y: R)
    requires WellFormed(g) && WellFormed(h) && AddsDependent(g, h, x, d) && Base(g, w) && y in g.all && x != d
    requires MayWait(w[x]) && w[d].state != Closed
    ensures Sound(h, DependentRegistered(w, x, d, data), y)
  {
    hide WellFormed, Owned, Registered, BottomUp, Tidy, Grown;
    WellFormedKeyed(g);
    WellFormedKeyed(h);
    NotYetDependent(g, h, w, x, d);
    DependentGrown(g, h, w, x, d, data);
    assert Sound(g, w, y) && Sound(g, w, d);
    DependentListed(g, h, w, x, d, data, y);
    DependentBottomUp(g, h, w, x, d, data, y);
    assert Tidy(h, y, w[y]) by {
      assert Grown(g, h, w, DependentRegistered(w, x, d, data));
      GrownTidy(g, h, y, w[y]);
    }
    if y == d {
      SubscribeTidy(h, d, w[d], Item(Resource(x), DependencyDefault, data), []);
      assert w[d].onAllDone + [] == w[d].onAllDone;
    }
    TidyQueues(h, y, w[y], DependentRegistered(w, x, d, data)[y]);
  }

  lemma DependentListed<R>(g: Graph<R>, h: Graph<R>, w: World<R>, x: R, d: R, data: int, y: R)
    requires Keyed(g) && Keyed(h) && AddsDependent(g, h, x, d) && w.Keys == g.all && x != d && y in g.all
    requires Registered(g, w, y) && d !in w[x].dependents && d in h.deps[x]
    requires var v := DependentRegistered(w, x, d, data); Grown(g, h, w, v)
    ensures Registered(h, DependentRegistered(w, x, d, data), y)
  {
    hide Addressed, Grown, Distinct;
    GrownRegistered(g, h, w, DependentRegistered(w, x, d, data), y);
    if y == x {
      AddressedLast(w[d].onClosed, Item(Resource(x), DependencyDefault, data), x);
      Last(w[x].dependents, d, d);
    }
  }

  lemma DependentBottomUp<R>(g: Graph<R>, h: Graph<R>, w: World<R>, x: R, d: R, data: int, y: R)
    requires Keyed(g) && Keyed(h) && AddsDependent(g, h, x, d) && w.Keys == g.all && x != d && y in g.all
    requires BottomUp(g, w, y) && w[x].state != Closed
    ensures BottomUp(h, DependentRegistered(w, x, d, data), y)
  {
    Last(g.deps[x], d, d);
    var v := DependentRegistered(w, x, d, data);
    if y == x {
      forall c | c in h.deps[x] && c !in v[x].dependents ensures c in g.deps[x] && c !in w[x].dependents {
        Last(g.deps[x], d, c);
        Last(w[x].dependents, d, c);
      }
    }
  }

  // ----- Taking a dependency back -----

  /** What `remove_depend_resource_bidirectional` does to the fields before `x` may start to close. */
  function DependentDropped<R(==)>(w: World<R>, x: R, d: R): World<R>
    requires x in w && d in w && x != d
  {
    w[d := w[d].(onClosed := WithoutWho(w[d].onClosed, Resource(x)), onAllDone := WithoutWho(w[d].onAllDone, Resource(x)))]
     [x := w[x].(dependents := RemovePtr(w[x].dependents, d))]
  }

  lemma DroppedFields<R>(w: World<R>, x: R, d: R)
    requires x in w && d in w && x != d
    ensures var v := DependentDropped(w, x, d);
            && v.Keys == w.Keys && (forall y :: y in w ==> v[y].state == w[y].state && v[y].underlying == w[y].underlying)
            && (forall y :: y in w && y != d ==> v[y].onClosed == w[y].onClosed)
            && (forall y :: y in w && y != x ==> v[y].dependents == w[y].dependents)
            && v[d].onClosed == WithoutWho(w[d].onClosed, Resource(x)) && v[x].dependents == RemovePtr(w[x].dependents, d)
  {
  }

  /** Between the two updates, when `d` has dropped the subscriptions of `x`. */
  lemma DroppedLater<R>(w: World<R>, u: World<R>, x: R, d: R)
    requires x in w && d in w && x != d
    requires u == w[d := w[d].(onClosed := WithoutWho(w[d].onClosed, Resource(x)), onAllDone := WithoutWho(w[d].onAllDone, Resource(x)))]
    ensures var v := DependentDropped(w, x, d);
            && v == u[x := u[x].(dependents := RemovePtr(u[x].dependents, d))] && u[x] == w[x]
            && InState(v, Alive) == InState(u, Alive) && InState(v, Closing) == InState(u, Closing)
  {
    hide RemovePtr, WithoutWho, InState;
    SameStates(u, DependentDropped(w, x, d));
  }

  lemma {:induction false} WithoutWhoDistinct<R>(q: seq<Item<R>>, who: Who<R>)
    requires KeysDistinct(q)
    ensures KeysDistinct(WithoutWho(q, who))
  {
    if q != [] {
      var p, e := q[..|q| - 1], q[|q| - 1];
      WithoutWhoDistinct(p, who);
      var r := WithoutWho(p, who);
      forall i | 0 <= i < |r| ensures r[i].who != e.who || (r[i].who.Outside? && r[i].data != e.data) {
        assert r[i] in p;
      }
    }
  }

  lemma WithoutWhoAddressed<R>(q: seq<Item<R>>, who: Who<R>, y: R, cb: Callback)
    requires who != Resource(y) && Addressed(q, y, cb)
    ensures Addressed(WithoutWho(q, who), y, cb)
  {
    var i :| 0 <= i < |q| && q[i].who == Resource(y) && q[i].cb == cb;
    assert q[i] in q && q[i] in WithoutWho(q, who);
  }

  lemma DropsMembers<R>(g: Graph<R>, h: Graph<R>, x: R, d: R)
    requires WellFormed(g) && DropsDependent(g, h, x, d)
    ensures Keyed(h) && h.all == g.all && x in g.all && d in g.deps[x] && d in g.all && x != d && d !in g.kids[x]
    ensures forall y, c :: y in g.all ==> (c in h.deps[y] <==> c in g.deps[y] && !(y == x && c == d))
    ensures forall y :: y in g.all ==> Distinct(h.deps[y])
    ensures h.kids == g.kids && h.owner == g.owner && h.rank == g.rank && h.top == g.top
  {
    BlockerRank(g, x, d);
    RemovePtrElements(g.deps[x], d);
  }

  lemma SameOwners<R>(g: Graph<R>, h: Graph<R>)
    requires Owned(g) && Keyed(h) && h.all == g.all
    requires h.kids == g.kids && h.owner == g.owner && h.rank == g.rank && h.top == g.top
    ensures Owned(h)
  {
  }

  lemma DropsWellFormed<R>(g: Graph<R>, h: Graph<R>, x: R, d: R)
    requires WellFormed(g) && DropsDependent(g, h, x, d)
    ensures WellFormed(h)
  {
    hide DropsDependent, Distinct, Owned, Keyed;
    DropsMembers(g, h, x, d);
    SameOwners(g, h);
  }

  /** Dropping the dependency leaves `x` settled or ready to start closing. */
  lemma DropKeepsInv<R>(g: Graph<R>, h: Graph<R>, w: World<R>, x: R, d: R)
    requires WellFormed(g) && DropsDependent(g, h, x, d) && Inv(g, w) && w[d].state != Closed
    ensures WellFormed(h) && x != d && InvBut(h, DependentDropped(w, x, d), x)
  {
    hide WellFormed, Owned, Sound, Settled, BlockersClosed, RemovePtr, WithoutWho, DropsDependent;
    WellFormedKeyed(g);
    DropsMembers(g, h, x, d);
    DropsWellFormed(g, h, x, d);
    var v := DependentDropped(w, x, d);
    forall y | y in h.all ensures Sound(h, v, y) {
      DropSound(g, h, w, x, d, y);
    }
    DropSettlesOthers(g, w, x, d);
    DropSettles(g, w, x, d);
  }

  lemma DropSettlesOthers<R>(g: Graph<R>, w: World<R>, x: R, d: R)
    requires Keyed(g) && x in g.all && d in g.all && x != d && Inv(g, w)
    ensures forall y {:trigger Settled(DependentDropped(w, x, d), y)} :: y in g.all && y != x ==> Settled(DependentDropped(w, x, d), y)
  {
    hide Sound, Settled, WithoutWho, RemovePtr;
    forall y | y in g.all && y != x ensures Settled(DependentDropped(w, x, d), y) {
      SettledSame(w, DependentDropped(w, x, d), y);
    }
  }

  lemma DropSettles<R>(g: Graph<R>, w: World<R>, x: R, d: R)
    requires Keyed(g) && x in g.all && d in g.deps[x] && d in g.all && x != d && Inv(g, w) && w[d].state != Closed
    ensures var v := DependentDropped(w, x, d);
            if v[x].state == Closing && BlockersClosed(v, x)
            then v[x].runs == 0 || (v[x].action == Deferred && v[x].runs + |v[x].underlying| + |v[x].dependents| == v[x].backlog)
            else Settled(v, x)
  {
    var v := DependentDropped(w, x, d);
    assert Sound(g, w, x) && Settled(w, x);
    RemovePtrElements(w[x].dependents, d);
    UnlinkSettles(w, v, x);
  }

  lemma DropSound<R>(g: Graph<R>, h: Graph<R>, w: World<R>, x: R, d: R, y: R)
    requires WellFormed(g) && DropsDependent(g, h, x, d) && Keyed(h) && x != d && Base(g, w) && w[d].state != Closed && y in g.all
    ensures Sound(h, DependentDropped(w, x, d), y)
  {
    hide WellFormed, Owned, Registered, BottomUp, Tidy;
    WellFormedKeyed(g);
    assert Sound(g, w, y) && Sound(g, w, x);
    DropListed(g, h, w, x, d, y);
    ListsDistinct(g, w, x);
    DropBottomUp(g, h, w, x, d, y);
    DropTidy(g, h, w, x, d, y);
  }

  lemma ListsDistinct<R>(g: Graph<R>, w: World<R>, x: R)
    requires Keyed(g) && w.Keys == g.all && x in g.all && Registered(g, w, x)
    ensures Distinct(w[x].underlying) && Distinct(w[x].dependents)
  {
  }

  lemma DropListed<R>(g: Graph<R>, h: Graph<R>, w: World<R>, x: R, d: R, y: R)
    requires WellFormed(g) && DropsDependent(g, h, x, d) && Keyed(h) && x != d && w.Keys == g.all && y in g.all
    requires Registered(g, w, y)
    ensures Registered(h, DependentDropped(w, x, d), y)
  {
    hide WellFormed, Owned, Addressed, RemovePtr, WithoutWho, DropsDependent;
    WellFormedKeyed(g);
    DropsMembers(g, h, x, d);
    DroppedFields(w, x, d);
    RemovePtrElements(w[y].dependents, d);
    hide DependentDropped, Distinct;
    var v := DependentDropped(w, x, d);
    forall k | k in v[y].underlying ensures k in h.kids[y] && Addressed(v[k].onClosed, y, OwnerDefault) {
      StillAddressed(w, x, d, y, k, OwnerDefault);
    }
    forall k | k in v[y].dependents ensures k in h.deps[y] && Addressed(v[k].onClosed, y, DependencyDefault) {
      StillAddressed(w, x, d, y, k, DependencyDefault);
    }
  }

  /** Only what `d` held for `x` is gone. */
  lemma StillAddressed<R>(w: World<R>, x: R, d: R, y: R, k: R, cb: Callback)
    requires x in w && d in w && x != d && k in w && (y == x ==> k != d) && Addressed(w[k].onClosed, y, cb)
    ensures Addressed(DependentDropped(w, x, d)[k].onClosed, y, cb)
  {
    DroppedFields(w, x, d);
    hide DependentDropped;
    if k == d {
      WithoutWhoAddressed(w[d].onClosed, Resource(x), y, cb);
    }
  }

  lemma DropBottomUp<R>(g: Graph<R>, h: Graph<R>, w: World<R>, x: R, d: R, y: R)
    requires WellFormed(g) && DropsDependent(g, h, x, d) && Keyed(h) && x != d && w.Keys == g.all && y in g.all
    requires BottomUp(g, w, y) && Distinct(w[x].dependents)
    ensures BottomUp(h, DependentDropped(w, x, d), y)
  {
    DroppedFields(w, x, d);
    hide WellFormed, Owned, Keyed, Addressed, Distinct, RemovePtr, WithoutWho, DropsDependent, DependentDropped;
    WellFormedKeyed(g);
    DropsMembers(g, h, x, d);
    RemovePtrElements(w[x].dependents, d);
    var v := DependentDropped(w, x, d);
    forall c | c in h.deps[y] && (c !in v[y].dependents || v[y].state == Closed) ensures v[c].state == Closed {
      assert c in g.deps[y];
    }
    forall c | c in h.kids[y] && (c !in v[y].underlying || v[y].state == Closed) ensures v[c].state == Closed {
      assert c in g.kids[y];
    }
  }

  lemma DropTidy<R>(g: Graph<R>, h: Graph<R>, w: World<R>, x: R, d: R, y: R)
    requires WellFormed(g) && DropsDependent(g, h, x, d) && Keyed(h) && x != d && w.Keys == g.all && y in g.all
    requires Tidy(g, y, w[y]) && AllDoneOnce(w[y]) && w[d].state != Closed
    ensures var r := DependentDropped(w, x, d)[y];
            Tidy(h, y, r) && AllDoneOnce(r)
  {
    hide WellFormed, Owned, KeysDistinct, DropsDependent, RemovePtr;
    WellFormedKeyed(g);
    DropsMembers(g, h, x, d);
    WithoutWhoDistinct(w[y].onClosed, Resource(x));
    var r := DependentDropped(w, x, d)[y];
    forall it | it in r.onClosed ensures GoodItem(h, y, it) {
      assert it in w[y].onClosed && GoodItem(g, y, it);
    }
  }
}
