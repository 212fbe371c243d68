/**
 The closing protocol of `ten_closeable_t`: data model, the graph of resources
 and the invariants that every step of the protocol keeps.

 A resource is an object whose fields the protocol updates in place
 (class `Closeable` in Closeable.dfy).  Reasoning happens on a `World`: the
 values of all the fields of all the resources of a graph at one moment.
 */
module ClosingGraph {

  datatype State = Alive | Closing | Closed

  /** How the action that closes the resource itself completes: within the call
      (also the behaviour when no action is set), or later by a callback. */
  datatype Action = Immediate | Deferred

  /** A subscriber: another resource, or anything else. */
  datatype Who<R> = Resource(res: R) | Outside(id: nat)

  /** The function that handles an event for the subscriber. `External` is any
      function of the user's; it acknowledges the event at once or later. */
  datatype Callback = OwnerDefault | DependencyDefault | External(acksNow: bool)

  datatype Item<R> = Item(who: Who<R>, cb: Callback, data: int)

  /** The fields of one resource at one moment. `runs`, `backlog`, `notified`,
      `allDoneLog` and `fired` record history: how often the own action was
      started, how many blockers had not been crossed off at its first start,
      whom 'closed' and 'all done' were delivered to, and how often 'all done'
      was announced. */
  datatype Res<R> = Res(
    state: State,
    action: Action,
    underlying: seq<R>,
    dependents: seq<R>,
    onClosed: seq<Item<R>>,
    onAllDone: seq<Item<R>>,
    runs: nat,
    backlog: nat,
    notified: seq<Item<R>>,
    allDoneLog: seq<Item<R>>,
    fired: nat)

  type World<R(==)> = map<R, Res<R>>

  // ----- Lists of pointers and of subscriptions -----

  ghost predicate Distinct<T>(s: seq<T>) {
    forall i, j :: 0 <= i < j < |s| ==> s[i] != s[j]
  }

  /** Removes the first occurrence, if there is one. */
  function RemovePtr<T(==)>(s: seq<T>, p: T): seq<T> {
    if s == [] then []
    else if s[0] == p then s[1..]
    else [s[0]] + RemovePtr(s[1..], p)
  }

  /** What removing does to a list without repetitions. */
  lemma {:induction false} RemovePtrElements<T>(s: seq<T>, p: T)
    requires Distinct(s)
    ensures var r := RemovePtr(s, p);
            && Distinct(r) && p !in r
            && (forall e :: e in r ==> e in s)
            && (forall e :: e in s && e != p ==> e in r)
            && |r| == (if p in s then |s| - 1 else |s|)
  {
    if s != [] {
      assert s == [s[0]] + s[1..];
      if s[0] != p {
        RemovePtrElements(s[1..], p);
        assert s[0] !in s[1..];
      }
    }
  }

  /** The elements of `s` that are in `t`, in the order of `s`. */
  function Only<T(==)>(s: seq<T>, t: seq<T>): (r: seq<T>)
    ensures forall e :: e in r ==> e in s && e in t
    ensures forall e :: e in s && e in t ==> e in r
    ensures (forall e :: e in s ==> e in t) ==> r == s
  {
    if s == [] then []
    else
      var rest := Only(s[..|s| - 1], t);
      if s[|s| - 1] in t then rest + [s[|s| - 1]] else rest
  }

  /** Is `r` what is left of `s`, in the same order? */
  predicate LeftOf<T(==)>(r: seq<T>, s: seq<T>) {
    r == Only(s, r)
  }

  predicate EndsWith<T(==)>(s: seq<T>, end: seq<T>) {
    |s| >= |end| && s[|s| - |end|..] == end
  }

  lemma {:induction false} OnlyTwice<T>(s: seq<T>, t: seq<T>, u: seq<T>)
    requires forall e :: e in u ==> e in t
    ensures Only(Only(s, t), u) == Only(s, u)
  {
    if s != [] {
      var p, e := s[..|s| - 1], s[|s| - 1];
      OnlyTwice(p, t, u);
      var rest := Only(p, t);
      assert (rest + [e])[..|rest|] == rest;
    }
  }

  lemma LeftOfTransitive<T>(s: seq<T>, r: seq<T>, q: seq<T>)
    requires LeftOf(r, s) && LeftOf(q, r)
    ensures LeftOf(q, s)
  {
    OnlyTwice(s, r, q);
  }

  lemma OnlyLast<T>(s: seq<T>, e: T, t: seq<T>)
    ensures Only(s + [e], t) == Only(s, t) + (if e in t then [e] else [])
  {
    assert (s + [e])[..|s|] == s;
  }

  lemma OnlyNone<T>(t: seq<T>)
    ensures Only([], t) == []
  {
  }

  lemma {:induction false} OnlyConcat<T>(a: seq<T>, b: seq<T>, t: seq<T>)
    ensures Only(a + b, t) == Only(a, t) + Only(b, t)
  {
    hide Only;
    if b == [] {
      OnlyNone(t);
      assert a + b == a && Only(a, t) + [] == Only(a, t);
    } else {
      var p, e := b[..|b| - 1], b[|b| - 1];
      OnlyConcat(a, p, t);
      OnlyLast(a + p, e, t);
      OnlyLast(p, e, t);
      assert a + b == a + p + [e] && b == p + [e];
    }
  }

  /** Whatever is left of a list still ends as the list did, if nothing of that end is gone. */
  lemma EndsAlike<T>(a: seq<T>, b: seq<T>, r: seq<T>)
    requires LeftOf(r, a + b) && forall e :: e in b ==> e in r
    ensures |r| >= |b| && r == r[..|r| - |b|] + b
  {
    OnlyConcat(a, b, r);
  }

  lemma OnlyFirst<T>(e: T, s: seq<T>, t: seq<T>)
    ensures Only([e] + s, t) == (if e in t then [e] else []) + Only(s, t)
  {
    hide Only;
    OnlyNone(t);
    OnlyLast([], e, t);
    OnlyConcat([e], s, t);
    assert [] + [e] == [e];
  }

  lemma {:induction false} RemovePtrLeft<T>(s: seq<T>, p: T)
    requires Distinct(s)
    ensures LeftOf(RemovePtr(s, p), s)
  {
    if s == [] {
    } else {
      var e, t := s[0], s[1..];
      assert s == [e] + t && e !in t;
      RemovePtrElements(t, p);
      hide Only, RemovePtr, Distinct;
      if e == p {
        FirstRemoved(s, p);
        OnlyFirst(e, t, t);
      } else {
        RemovePtrLeft(t, p);
        FirstStays(s, p);
        OnlyFirst(e, t, [e] + RemovePtr(t, p));
        OnlySame(t, RemovePtr(t, p), [e] + RemovePtr(t, p));
      }
    }
  }

  lemma FirstRemoved<T>(s: seq<T>, p: T)
    requires s != [] && s[0] == p
    ensures RemovePtr(s, p) == s[1..]
  {
  }

  lemma FirstStays<T>(s: seq<T>, p: T)
    requires s != [] && s[0] != p
    ensures RemovePtr(s, p) == [s[0]] + RemovePtr(s[1..], p)
  {
  }

  lemma {:induction false} OnlySame<T>(s: seq<T>, t: seq<T>, u: seq<T>)
    requires forall e :: e in s ==> (e in t <==> e in u)
    ensures Only(s, t) == Only(s, u)
  {
    if s != [] {
      OnlySame(s[..|s| - 1], t, u);
    }
  }

  predicate Matches<R(==)>(it: Item<R>, who: Who<R>, data: int) {
    it.who == who && it.data == data
  }

  /** Removes the first subscription of `who` with `data`, if there is one. */
  function RemoveItem<R(==)>(q: seq<Item<R>>, who: Who<R>, data: int): seq<Item<R>> {
    if q == [] then []
    else if Matches(q[0], who, data) then q[1..]
    else [q[0]] + RemoveItem(q[1..], who, data)
  }

  lemma {:induction false} RemoveItemAt<R>(p: seq<Item<R>>, it: Item<R>, s: seq<Item<R>>)
    requires forall i :: 0 <= i < |p| ==> !Matches(p[i], it.who, it.data)
    ensures RemoveItem(p + [it] + s, it.who, it.data) == p + s
  {
    var q := p + [it] + s;
    if p == [] {
      assert q[1..] == s;
      assert p + s == s;
    } else {
      assert q[0] == p[0];
      assert q[1..] == p[1..] + [it] + s;
      RemoveItemAt(p[1..], it, s);
      assert p + s == [p[0]] + (p[1..] + s);
    }
  }

  /** All subscriptions except those of `who`. */
  function WithoutWho<R(==)>(q: seq<Item<R>>, who: Who<R>): (r: seq<Item<R>>)
    ensures forall it :: it in r ==> it in q && it.who != who
    ensures forall it :: it in q && it.who != who ==> it in r
    ensures (forall it :: it in q ==> it.who != who) ==> r == q
  {
    if q == [] then []
    else
      var rest := WithoutWho(q[..|q| - 1], who);
      if q[|q| - 1].who == who then rest else rest + [q[|q| - 1]]
  }

  /** Will this subscriber still owe its acknowledgement when its callback returns? */
  predicate Owes<R>(it: Item<R>) {
    it.cb == External(false)
  }

  /** The subscriptions left once every callback has run. */
  function Unacked<R>(q: seq<Item<R>>): (r: seq<Item<R>>)
    ensures forall it :: it in r ==> it in q && Owes(it)
    ensures forall it :: it in q && Owes(it) ==> it in r
  {
    if q == [] then []
    else
      var rest := Unacked(q[..|q| - 1]);
      if Owes(q[|q| - 1]) then rest + [q[|q| - 1]] else rest
  }

  // ----- The graph -----

  /** What was registered before closing started: who owns whom (`kids`, and
      `owner` the other way round) and who is depended on by whom (`deps`).
      `rank`, at most `top`, witnesses that waiting is acyclic: an owner waits
      for what it owns, a dependency for what depends on it. */
  datatype Graph<!R> = Graph(
    all: set<R>, owner: map<R, R>, kids: map<R, seq<R>>, deps: map<R, seq<R>>, rank: map<R, nat>, top: nat)

  ghost predicate Keyed<R>(g: Graph<R>) {
    && g.kids.Keys == g.all && g.deps.Keys == g.all
    && (forall x, k :: x in g.all && k in g.kids[x] ==> k in g.all)
    && (forall x, d :: x in g.all && d in g.deps[x] ==> d in g.all)
  }

  ghost predicate Owned<R>(g: Graph<R>) {
    && Keyed(g) && g.rank.Keys == g.all && g.owner.Keys <= g.all
    && (forall k :: k in g.owner ==> g.owner[k] in g.all && k in g.kids[g.owner[k]] && g.rank[k] < g.rank[g.owner[k]])
    && (forall x :: x in g.all ==> g.rank[x] <= g.top)
    && (forall x, k :: x in g.all && k in g.kids[x] ==> k in g.owner && g.owner[k] == x && g.rank[k] < g.rank[x])
  }

  /** Single owners, acyclic waiting, nothing registered twice, no pair related
      by both ownership and dependency. */
  ghost predicate WellFormed<R>(g: Graph<R>) {
    && Owned(g)
    && (forall x, d :: x in g.all && d in g.deps[x] ==> d !in g.kids[x])
    && (forall x, d :: x in g.all && d in g.deps[x] ==> g.rank[d] < g.rank[x])
    && (forall x :: x in g.all ==> Distinct(g.kids[x]) && Distinct(g.deps[x]))
  }

  lemma WellFormedKeyed<R>(g: Graph<R>)
    requires WellFormed(g)
    ensures Keyed(g) && Owned(g)
  {
  }

  /** Waiting goes down in rank. */
  lemma BlockerRank<R>(g: Graph<R>, x: R, y: R)
    requires WellFormed(g) && x in g.all && (y in g.kids[x] || y in g.deps[x])
    ensures y in g.all && g.rank[y] < g.rank[x] && y != x
    ensures y in g.kids[x] <==> y !in g.deps[x]
  {
    if y in g.kids[x] {
      assert g.owner[y] == x;
    }
  }

  /** Is `r` the resource `x` itself or owned by it, directly or not? */
  ghost predicate InTree<R>(g: Graph<R>, r: R, x: R)
    requires Owned(g) && r in g.all
    decreases g.top - g.rank[r]
  {
    r == x || (r in g.owner && InTree(g, g.owner[r], x))
  }

  lemma {:induction false} TreeRank<R>(g: Graph<R>, r: R, x: R)
    requires Owned(g) && r in g.all && x in g.all && InTree(g, r, x)
    ensures g.rank[r] <= g.rank[x]
    decreases g.top - g.rank[r]
  {
    if r != x {
      TreeRank(g, g.owner[r], x);
    }
  }

  lemma {:induction false} TreeTransitive<R>(g: Graph<R>, r: R, k: R, x: R)
    requires Owned(g) && r in g.all && k in g.all && InTree(g, r, k) && InTree(g, k, x)
    ensures InTree(g, r, x)
    decreases g.top - g.rank[r]
  {
    if r != k {
      TreeTransitive(g, g.owner[r], k, x);
    }
  }

  /** A tree is its root and the trees of what the root owns. */
  lemma {:induction false} TreeOfKid<R>(g: Graph<R>, r: R, x: R) returns (k: R)
    requires Owned(g) && r in g.all && x in g.all && InTree(g, r, x) && r != x
    ensures k in g.kids[x] && k in g.all && InTree(g, r, k)
    decreases g.top - g.rank[r]
  {
    if g.owner[r] == x {
      k := r;
    } else {
      k := TreeOfKid(g, g.owner[r], x);
    }
  }

  /** The trees of two resources with the same owner are disjoint. */
  lemma {:induction false} SiblingTreesDisjoint<R>(g: Graph<R>, x: R, k: R, l: R, r: R)
    requires Owned(g) && x in g.all && k in g.kids[x] && l in g.kids[x] && k != l
    requires r in g.all && InTree(g, r, k)
    ensures !InTree(g, r, l)
    decreases g.top - g.rank[r]
  {
    hide Keyed;
    if InTree(g, r, l) {
      assert g.owner[k] == x && g.owner[l] == x;
      if r == k {
        TreeRank(g, x, l);
      } else if r == l {
        TreeRank(g, x, k);
      } else {
        SiblingTreesDisjoint(g, x, k, l, g.owner[r]);
      }
    }
  }
}
