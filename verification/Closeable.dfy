/**
 The closing protocol itself: `ten_closeable_t` and its methods, which re-enter
 one another while a tree of resources closes.
 */
module Closeables {
  import opened ClosingGraph
  import opened ClosingInvariant
  import opened ClosingTree
  import opened ClosingRegistration
  import opened ClosingOrder

  class Closeable {
    var state: State
    const action: Action
    var underlying: seq<Closeable>
    var dependents: seq<Closeable>
    var onIntend: seq<Item<Closeable>>
    var onClosed: seq<Item<Closeable>>
    var onAllDone: seq<Item<Closeable>>

    ghost var runs: nat
    ghost var backlog: nat
    ghost var notified: seq<Item<Closeable>>
    ghost var allDoneLog: seq<Item<Closeable>>
    ghost var fired: nat

    ghost function Snap(): Res<Closeable>
      reads this
    {
      Res(state, action, underlying, dependents, onClosed, onAllDone, runs, backlog, notified, allDoneLog, fired)
    }

    /** `ten_closeable_init`, with the kind of close action that is set afterwards. */
    constructor (action: Action)
      ensures Snap() == Res(Alive, action, [], [], [], [], 0, 0, [], [], 0)
      ensures onIntend == []
    {
      this.state := Alive;
      this.action := action;
      underlying, dependents := [], [];
      onIntend, onClosed, onAllDone := [], [], [];
      runs, backlog, notified, allDoneLog, fired := 0, 0, [], [], 0;
    }

    /** Announces 'all done': the queue is swapped out, so each subscriber is
        called once, whatever the callbacks do. */
    method AnnounceAllDone()
      modifies this`onAllDone, this`allDoneLog, this`fired
      ensures Snap() == FireAllDone(old(Snap()))
    {
      var queue := onAllDone;
      onAllDone := [];
      ghost var before := allDoneLog;
      for i := 0 to |queue|
        invariant allDoneLog == before + queue[..i]
        invariant Snap() == old(Snap()).(onAllDone := [], allDoneLog := allDoneLog)
      {
        allDoneLog := allDoneLog + [queue[i]];
      }
      fired := fired + 1;
    }

    /** A subscriber acknowledges 'closed' in this resource's own thread. */
    method OnClosedDone(who: Who<Closeable>, data: int)
      requires exists i :: 0 <= i < |onClosed| && Matches(onClosed[i], who, data)
      modifies this`onClosed, this`onAllDone, this`allDoneLog, this`fired
      ensures Snap() == AckRes(old(Snap()), who, data)
    {
      var i := 0;
      while !Matches(onClosed[i], who, data)
        invariant 0 <= i < |onClosed|
        invariant forall j :: 0 <= j < i ==> !Matches(onClosed[j], who, data)
        decreases |onClosed| - i
      {
        i := i + 1;
      }
      ghost var it := onClosed[i];
      assert onClosed == onClosed[..i] + [it] + onClosed[i + 1..];
      RemoveItemAt(onClosed[..i], it, onClosed[i + 1..]);
      onClosed := onClosed[..i] + onClosed[i + 1..];
      if onClosed == [] {
        AnnounceAllDone();
      }
    }

    /** Are all the underlying resources and all the dependents still listed closed? */
    method CouldStartToCloseMyself(ghost all: set<Closeable>) returns (ready: bool)
      requires this in all
      requires forall k :: k in underlying ==> k in all
      requires forall d :: d in dependents ==> d in all
      ensures ready == BlockersClosed(View(all), this)
    {
      for i := 0 to |underlying|
        invariant forall j :: 0 <= j < i ==> underlying[j].state == Closed
      {
        if underlying[i].state != Closed {
          assert underlying[i] in View(all)[this].underlying;
          return false;
        }
      }
      for i := 0 to |dependents|
        invariant forall j :: 0 <= j < i ==> dependents[j].state == Closed
      {
        if dependents[i].state != Closed {
          assert dependents[i] in View(all)[this].dependents;
          return false;
        }
      }
      return true;
    }

    /** Drops every subscription of `who` from the three queues. */
    method RemoveBeNotified(who: Who<Closeable>)
      modifies this`onIntend, this`onClosed, this`onAllDone
      ensures Snap() == old(Snap()).(onClosed := WithoutWho(old(onClosed), who), onAllDone := WithoutWho(old(onAllDone), who))
      ensures onIntend == WithoutWho(old(onIntend), who)
    {
      onAllDone := RemoveWho(onAllDone, who);
      onClosed := RemoveWho(onClosed, who);
      onIntend := RemoveWho(onIntend, who);
    }

    /** Starts the own action: everything this resource waited for is closed. */
    method DoClose(ghost g: Graph<Closeable>)
      requires WellFormed(g) && this in g.all && InvReady(g, View(g.all), this)
      modifies g.all
      decreases InState(View(g.all), Alive), InState(View(g.all), Closing), 3
      ensures Inv(g, View(g.all)) && Progress(old(View(g.all)), View(g.all)) && SameAlive(old(View(g.all)), View(g.all))
      ensures action == Immediate ==> state == Closed
      ensures action == Deferred ==> View(g.all) == old(View(g.all))[this := StartRes(old(Snap()))]
      ensures Calm(g, old(View(g.all)), this) ==> Once(View(g.all))
    {
      hide Inv, InvActed, Progress, SameAlive, InState, Owned, Base, Settled, BlockersClosed, Calm, Once;
      WellFormedKeyed(g);
      ghost var a := View(g.all);
      if Calm(g, a, this) {
        CalmReady(g, a, this);
      }
      StartKeepsInv(g, a, this);
      StartProgress(a, this);
      CountStart(g.all);
      ghost var w := View(g.all);
      if action == Immediate {
        ActionToCloseMyselfDone(g);
        ProgressTransitive(a, w, View(g.all));
      }
    }

    /** The own action is started once more. */
    ghost method CountStart(all: set<Closeable>)
      requires this in all
      modifies this`runs, this`backlog
      ensures View(all) == old(View(all))[this := StartRes(old(Snap()))]
      ensures Snap() == StartRes(old(Snap()))
    {
      backlog := if runs == 0 then |underlying| + |dependents| else backlog;
      runs := runs + 1;
    }

    /** Calls one subscriber: the indirect call in the loop of `action_to_close_myself_done`. */
    method ServeItem(it: Item<Closeable>, ghost k: nat, ghost g: Graph<Closeable>)
      requires WellFormed(g) && this in g.all && Inv(g, View(g.all))
      requires state == Closed && k < |onClosed| && onClosed[k] == it && Listed(View(g.all), this, it)
      modifies g.all
      decreases InState(View(g.all), Alive), InState(View(g.all), Closing), 7
      ensures Inv(g, View(g.all))
      ensures !Owes(it) ==> Served(old(View(g.all)), View(g.all), this, k)
      ensures Owes(it) ==> View(g.all) == old(View(g.all))
      ensures CalmFor(g, old(View(g.all)), it, this) ==> Once(View(g.all))
    {
      hide Inv, Served, Owned, InState, CalmBut, Once, InOrder;
      WellFormedKeyed(g);
      ItemIsGood(g, View(g.all), this, k);
      match it.cb
      case OwnerDefault =>
        ghost var between := it.who.res.OnUnderlyingResourceClosed(this, it.data, k, g);
      case DependencyDefault =>
        OnDependedResourceClosed(it.who.res, it.data, k, g);
      case External(acksNow) =>
        if acksNow {
          Acknowledge(it.who, it.data, k, g);
        }
    }

    /** The default reaction of an owner when `child`, which it owns, has closed.
        `between` is the world when the owner has done its part and the child has not
        been acknowledged: the child's 'all done' is still to come, and the owner's
        own has been made by then exactly under the condition below. */
    method OnUnderlyingResourceClosed(child: Closeable, data: int, ghost k: nat, ghost g: Graph<Closeable>)
      returns (ghost between: World<Closeable>)
      requires WellFormed(g) && this in g.all && child in g.all && Inv(g, View(g.all))
      requires child.state == Closed && child in underlying
      requires k < |child.onClosed| && child.onClosed[k] == Item(Resource(this), OwnerDefault, data)
      modifies g.all
      decreases InState(View(g.all), Alive), InState(View(g.all), Closing), 6
      ensures Inv(g, View(g.all)) && Served(old(View(g.all)), View(g.all), child, k)
      ensures between.Keys == g.all && between[child].fired == 0
      ensures between[this].fired == 1 <==> old(fired) == 1 || ClosesWith(old(View(g.all)), this)
      ensures CalmBut(g, old(View(g.all)), this, child) ==> Once(View(g.all))
    {
      hide Inv, InvBut, Served, Progress, SameAlive, ListsShrink, Owned, InState, Calm, CalmBut, Once, BlockersClosed, ClosesWith;
      WellFormedKeyed(g);
      ghost var w := View(g.all);
      CrossOffChild(child, g);
      ghost var v := View(g.all);
      CheckAndClose(g);
      between := View(g.all);
      OwnerFirst(g, w, v, between, this, child);
      UnlinkedStays(g, v, between, this, child);
      child.Acknowledge(Resource(this), data, k, g);
      UnlinkServes(w, v, between, View(g.all), this, child, k);
    }

    /** Forgets `child`, which has closed. */
    method CrossOffChild(child: Closeable, ghost g: Graph<Closeable>)
      requires WellFormed(g) && this in g.all && child in g.all && Inv(g, View(g.all))
      requires child.state == Closed && child in underlying
      modifies this`underlying
      ensures View(g.all) == old(View(g.all))[this := old(Snap()).(underlying := RemovePtr(old(underlying), child))]
      ensures InvBut(g, View(g.all), this) && ListsShrink(old(View(g.all)), View(g.all), this, {child})
      ensures this != child && child !in underlying && child !in dependents
      ensures InState(View(g.all), Alive) == InState(old(View(g.all)), Alive)
      ensures InState(View(g.all), Closing) == InState(old(View(g.all)), Closing)
      ensures CalmBut(g, old(View(g.all)), this, child) ==> Calm(g, View(g.all), this)
    {
      hide Inv, InvBut, ListsShrink, Owned, InState, Calm, CalmBut;
      WellFormedKeyed(g);
      ghost var w := View(g.all);
      OwnerCrosses(g, w, this, child);
      underlying := RemovePtr(underlying, child);
      OnlyChanged(g.all, this, w);
    }

    /** The second half of both default reactions: start closing if nothing blocks any more. */
    method CheckAndClose(ghost g: Graph<Closeable>)
      requires WellFormed(g) && this in g.all && InvBut(g, View(g.all), this)
      modifies g.all
      decreases InState(View(g.all), Alive), InState(View(g.all), Closing), 4
      ensures Inv(g, View(g.all)) && Progress(old(View(g.all)), View(g.all)) && SameAlive(old(View(g.all)), View(g.all))
      ensures if old(state) == Closing && BlockersClosed(old(View(g.all)), this)
              then (if action == Immediate then state == Closed
                    else View(g.all) == old(View(g.all))[this := StartRes(old(Snap()))])
              else View(g.all) == old(View(g.all))
      ensures Calm(g, old(View(g.all)), this) ==> Once(View(g.all))
    {
      hide InvReady, Settled, BlockersClosed, Owned, InState, Progress, SameAlive, InOrder, Once, Stale;
      WellFormedKeyed(g);
      ghost var v := View(g.all);
      assert Sound(g, v, this);
      StepProgress(v);
      if state == Closing {
        var ready := CouldStartToCloseMyself(g.all);
        if ready {
          DoClose(g);
        }
      }
    }

    /** The call of `on_closed_done` at the end of a callback. */
    method Acknowledge(who: Who<Closeable>, data: int, ghost k: nat, ghost g: Graph<Closeable>)
      requires WellFormed(g) && this in g.all && Inv(g, View(g.all))
      requires state == Closed && k < |onClosed| && onClosed[k].who == who && onClosed[k].data == data
      requires who.Resource? ==> who.res in g.all && this !in who.res.underlying && this !in who.res.dependents
      modifies this`onClosed, this`onAllDone, this`allDoneLog, this`fired
      ensures Inv(g, View(g.all)) && Served(old(View(g.all)), View(g.all), this, k)
      ensures Once(old(View(g.all))) ==> Once(View(g.all))
    {
      hide Inv, Served, Owned, WellFormed, RemoveItem, AckRes, Once;
      WellFormedKeyed(g);
      ghost var w := View(g.all);
      Acknowledged(g, w, this, k, who, data);
      OnClosedDone(who, data);
      OnlyChanged(g.all, this, w);
    }

    /** The default reaction, on behalf of `depend`, when this resource, which depends on it, has closed. */
    method OnDependedResourceClosed(depend: Closeable, data: int, ghost k: nat, ghost g: Graph<Closeable>)
      requires WellFormed(g) && this in g.all && depend in g.all && Inv(g, View(g.all))
      requires state == Closed && this in depend.dependents
      requires k < |onClosed| && onClosed[k] == Item(Resource(depend), DependencyDefault, data)
      modifies g.all
      decreases InState(View(g.all), Alive), InState(View(g.all), Closing), 6
      ensures Inv(g, View(g.all)) && Served(old(View(g.all)), View(g.all), this, k)
      ensures CalmBut(g, old(View(g.all)), depend, this) ==> Once(View(g.all))
    {
      hide Inv, InvBut, Served, Progress, SameAlive, ListsShrink, Owned, InState, Calm, CalmBut, Once, BlockersClosed;
      WellFormedKeyed(g);
      ghost var w := View(g.all);
      DependentUnlinked(g, w, depend, this);
      ghost var v := w[depend := w[depend].(dependents := RemovePtr(w[depend].dependents, this))];
      NoMutualItem(g, v, depend, this);
      if CalmBut(g, w, depend, this) {
        CrossCalm(g, w, v, depend, this);
      }
      RemoveDependResource(depend, g, v);
      ghost var u := View(g.all);
      UnlinkedStays(g, v, u, depend, this);
      Acknowledge(Resource(depend), data, k, g);
      UnlinkServes(w, v, u, View(g.all), depend, this, k);
    }

    /** This resource no longer depends on `depend`, which may start to close
        because of that. `v` is the world with only this resource crossed off. */
    method RemoveDependResource(depend: Closeable, ghost g: Graph<Closeable>, ghost v: World<Closeable>)
      requires WellFormed(g) && this in g.all && depend in g.all
      requires WithoutWho(depend.onClosed, Resource(this)) == depend.onClosed
      requires WithoutWho(depend.onAllDone, Resource(this)) == depend.onAllDone
      requires var w := View(g.all);
               v == w[depend := w[depend].(dependents := RemovePtr(w[depend].dependents, this))]
      requires InvBut(g, v, depend)
      requires InState(v, Alive) == InState(View(g.all), Alive) && InState(v, Closing) == InState(View(g.all), Closing)
      modifies g.all
      decreases InState(View(g.all), Alive), InState(View(g.all), Closing), 5
      ensures Inv(g, View(g.all)) && Progress(v, View(g.all)) && SameAlive(v, View(g.all))
      ensures v[depend].state == Closing && BlockersClosed(v, depend) ==> depend.state == Closed || depend.runs > 0
      ensures Calm(g, v, depend) ==> Once(View(g.all))
    {
      hide Inv, InvBut, Progress, SameAlive, Owned, InState, WellFormed, RemovePtr, WithoutWho, BlockersClosed, Calm, Once;
      WellFormedKeyed(g);
      ghost var w := View(g.all);
      depend.CrossOffDependent(this);
      OnlyChanged(g.all, depend, w);
      assert View(g.all) == v;
      depend.CheckAndClose(g);
    }

    /** Forgets `d`, which depended on this resource, and whatever it subscribed to here. */
    method CrossOffDependent(d: Closeable)
      requires WithoutWho(onClosed, Resource(d)) == onClosed && WithoutWho(onAllDone, Resource(d)) == onAllDone
      modifies this`dependents, this`onIntend, this`onClosed, this`onAllDone
      ensures Snap() == old(Snap()).(dependents := RemovePtr(old(dependents), d))
      ensures onIntend == WithoutWho(old(onIntend), Resource(d))
    {
      dependents := RemovePtr(dependents, d);
      RemoveBeNotified(Resource(d));
    }

    // ----- Registration -----

    /** Adds a subscriber to any of the three queues. */
    method AddBeNotified(intend: Option<Item<Closeable>>, closed: Option<Item<Closeable>>, allDone: Option<Item<Closeable>>)
      modifies this`onIntend, this`onClosed, this`onAllDone
      ensures Snap() == old(Snap()).(onClosed := Plus(old(onClosed), closed), onAllDone := Plus(old(onAllDone), allDone))
      ensures onIntend == Plus(old(onIntend), intend)
    {
      if intend.Some? {
        onIntend := onIntend + [intend.value];
      }
      if closed.Some? {
        onClosed := onClosed + [closed.value];
      }
      if allDone.Some? {
        onAllDone := onAllDone + [allDone.value];
      }
    }

    /** This resource becomes the owner of `child`; `h` is `g` with that ownership. */
    method AddUnderlyingResource(child: Closeable, intend: Option<Item<Closeable>>, allDone: Item<Closeable>,
                                 ghost g: Graph<Closeable>, ghost h: Graph<Closeable>)
      requires WellFormed(g) && WellFormed(h) && AddsKid(g, h, this, child) && Inv(g, View(g.all))
      requires MayWait(Snap()) && child.state != Closed && allDone.who == Resource(this)
      modifies this, child
      ensures this != child && View(g.all) == KidRegistered(old(View(g.all)), this, child, allDone)
      ensures Inv(h, View(h.all))
      ensures underlying == old(underlying) + [child]
      ensures child.onClosed == old(child.onClosed) + [Item(Resource(this), OwnerDefault, 0)]
      ensures child.onAllDone == old(child.onAllDone) + [allDone]
      ensures child.onIntend == Plus(old(child.onIntend), intend) && onIntend == old(onIntend)
    {
      hide Inv, Owned, WellFormed;
      WellFormedKeyed(g);
      ghost var w := View(g.all);
      KidRegisteredKeepsInv(g, h, w, this, child, allDone);
      underlying := underlying + [child];
      child.AddBeNotified(intend, Some(Item(Resource(this), OwnerDefault, 0)), Some(allDone));
      OnlyTwoChanged(g.all, this, child, w);
      assert View(g.all) == KidRegistered(w, this, child, allDone);
    }

    /** This resource starts to depend on `depend`; `h` is `g` with that dependency. */
    method AddDependResource(depend: Closeable, data: int, intend: Option<Item<Closeable>>,
                             ghost g: Graph<Closeable>, ghost h: Graph<Closeable>)
      requires WellFormed(g) && WellFormed(h) && AddsDependent(g, h, depend, this) && Inv(g, View(g.all))
      requires MayWait(depend.Snap()) && state != Closed
      modifies this, depend
      ensures this != depend && View(g.all) == DependentRegistered(old(View(g.all)), depend, this, data)
      ensures Inv(h, View(h.all))
      ensures depend.dependents == old(depend.dependents) + [this]
      ensures onClosed == old(onClosed) + [Item(Resource(depend), DependencyDefault, data)] && onAllDone == old(onAllDone)
      ensures depend.onIntend == Plus(old(depend.onIntend), intend) && onIntend == old(onIntend)
    {
      hide Inv, Owned, WellFormed;
      WellFormedKeyed(g);
      ghost var w := View(g.all);
      DependentRegisteredKeepsInv(g, h, w, depend, this, data);
      depend.dependents := depend.dependents + [this];
      if intend.Some? {
        depend.AddBeNotified(intend, None, None);
      }
      AddBeNotified(None, Some(Item(Resource(depend), DependencyDefault, data)), None);
      OnlyTwoChanged(g.all, depend, this, w);
    }

    /** This resource no longer depends on `depend`, nor does `depend` wait for it;
        `h` is `g` without that dependency. If `depend` is closing and waited for
        nothing else, it starts to close. */
    method RemoveDependResourceBidirectional(depend: Closeable, ghost g: Graph<Closeable>, ghost h: Graph<Closeable>)
      requires WellFormed(g) && DropsDependent(g, h, depend, this) && Inv(g, View(g.all)) && state != Closed
      modifies g.all
      ensures WellFormed(h) && this != depend && Inv(h, View(h.all))
      ensures Progress(DependentDropped(old(View(g.all)), depend, this), View(g.all))
      ensures var v := DependentDropped(old(View(g.all)), depend, this);
              v[depend].state == Closing && BlockersClosed(v, depend) ==> depend.state == Closed || depend.runs > 0
    {
      hide Inv, InvBut, Owned, DropsDependent, Progress, SameAlive, WithoutWho, RemovePtr, BlockersClosed, WellFormed, InState, Distinct;
      WellFormedKeyed(g);
      ghost var w := View(g.all);
      DropsMembers(g, h, depend, this);
      DropKeepsInv(g, h, w, depend, this);
      ghost var v := DependentDropped(w, depend, this);
      NoMutualItem(g, w, depend, this);
      RemoveBeNotified(Resource(depend));
      OnlyChanged(g.all, this, w);
      DroppedLater(w, View(g.all), depend, this);
      hide DependentDropped;
      RemoveDependResource(depend, h, v);
    }

    /** `ten_closeable_close`: tells this resource and all it owns to close, top down. */
    method Close(ghost g: Graph<Closeable>)
      requires WellFormed(g) && this in g.all && Inv(g, View(g.all)) && TreeAlive(g, View(g.all), this)
      modifies g.all
      decreases InState(View(g.all), Alive), InState(View(g.all), Closing), 8
      ensures ClosedTree(g, old(View(g.all)), View(g.all), this)
      ensures Resting(g, old(View(g.all))) ==> Once(View(g.all))
    {
      hide Calm, Once, Resting, Inv, InvBut, InvReady, Progress, SameAlive, Owned, TreeAlive, TreeLeft, RestKept, Descending, ClosedTree, InState, BlockersClosed, WellFormed;
      WellFormedKeyed(g);
      ghost var a := View(g.all);
      TreeRootAlive(g, a, this);
      ToClosing(g, a, this);
      ghost var w := a[this := a[this].(state := Closing)];
      var ready := MarkClosing(g);
      if Resting(g, a) {
        RestingMarked(g, a, this);
      }
      if ready {
        ReadyHasNoKids(g, a, w, this);
        DoClose(g);
        ReadyClosesTree(g, a, w, View(g.all), this);
      } else {
        BlockedIsSettled(g, w, this);
        DescendStart(g, a, w, this);
        var items := underlying;
        for i := 0 to |items|
          invariant Descending(g, a, View(g.all), this, items, i)
          invariant Resting(g, a) ==> Once(View(g.all))
        {
          CloseOwned(items, i, a, g);
        }
        DescendEnd(g, a, View(g.all), this, items);
      }
    }

    /** The beginning of `close`: it may be called only once. */
    method MarkClosing(ghost g: Graph<Closeable>) returns (ready: bool)
      requires WellFormed(g) && this in g.all && Inv(g, View(g.all)) && state == Alive
      modifies this`state
      ensures View(g.all) == old(View(g.all))[this := old(Snap()).(state := Closing)]
      ensures ready == BlockersClosed(View(g.all), this)
    {
      hide Inv, Owned;
      WellFormedKeyed(g);
      ghost var a := View(g.all);
      ListsRegistered(g, a, this);
      assert state == Alive;
      state := Closing;
      OnlyChanged(g.all, this, a);
      ready := CouldStartToCloseMyself(g.all);
    }

    /** One round of the loop above: closes the tree of `items[i]`, which no earlier
        round has touched; `a` is the world before the call of `close`. The program
        walks the list itself, having read the next node before; that node is still
        in the list, for `Descending` says so of all the resources not reached yet. */
    method CloseOwned(items: seq<Closeable>, i: nat, ghost a: World<Closeable>, ghost g: Graph<Closeable>)
      requires WellFormed(g) && this in g.all && a.Keys == g.all && a[this].state == Alive
      requires Descending(g, a, View(g.all), this, items, i) && i < |items|
      modifies g.all
      decreases InState(a, Alive), InState(a, Closing), 1
      ensures Descending(g, a, View(g.all), this, items, i + 1)
      ensures Resting(g, a) && Once(old(View(g.all))) ==> Once(View(g.all))
    {
      hide Inv, Progress, Keyed, Owned, TreeAlive, TreeLeft, RestKept, Descending, InState, Resting, Once;
      WellFormedKeyed(g);
      ghost var u := View(g.all);
      if Resting(g, a) && Once(u) {
        DescendResting(g, a, u, this, items, i);
      }
      DescendNext(g, a, u, this, items, i);
      items[i].Close(g);
      DescendStep(g, a, u, View(g.all), this, items, i);
    }

    /** The own action is complete: this resource is closed; its subscribers are told. */
    method ActionToCloseMyselfDone(ghost g: Graph<Closeable>)
      requires WellFormed(g) && this in g.all && InvActed(g, View(g.all), this)
      modifies g.all
      decreases InState(View(g.all), Alive), InState(View(g.all), Closing), 2
      ensures Inv(g, View(g.all)) && Progress(old(View(g.all)), View(g.all)) && SameAlive(old(View(g.all)), View(g.all))
      ensures state == Closed
      ensures Calm(g, old(View(g.all)), this) ==> Once(View(g.all))
    {
      hide Inv, InvActed, Progress, SameAlive, InState, Keyed, Announcing, Calm, Once;
      WellFormedKeyed(g);
      ghost var a := View(g.all);
      AnnounceBegins(g, a, this);
      MarkClosed();
      OnlyChanged(g.all, this, a);
      assert View(g.all) == a[this := CloseRes(a[this])];
      var items := onClosed;
      for i := 0 to |items|
        invariant items == a[this].onClosed && Announcing(g, a, View(g.all), this, i)
        invariant Calm(g, a, this) ==> Once(View(g.all))
      {
        AnnounceOne(items[i], i, a, g);
      }
      AnnounceEnd(g, a, View(g.all), this);
    }

    /** The beginning of `action_to_close_myself_done`, up to the early return. */
    method MarkClosed()
      modifies this`state, this`onAllDone, this`allDoneLog, this`fired
      ensures Snap() == CloseRes(old(Snap()))
    {
      state := Closed;
      if onClosed == [] {
        AnnounceAllDone();
      }
    }

    /** Records that `it` is called. */
    ghost method NoteCall(it: Item<Closeable>, all: set<Closeable>)
      requires this in all
      modifies this`notified
      ensures View(all) == old(View(all))[this := old(Snap()).(notified := old(notified) + [it])]
    {
      notified := notified + [it];
    }

    /** One round of the loop above; `a` is the world before the loop. The program
        walks the queue itself, having read the next node before; that node is still
        in the queue, for `Announcing` says so of all the subscriptions not reached yet. */
    method AnnounceOne(it: Item<Closeable>, ghost i: nat, ghost a: World<Closeable>, ghost g: Graph<Closeable>)
      requires WellFormed(g) && this in g.all && a.Keys == g.all && Base(g, a)
      requires Announcing(g, a, View(g.all), this, i) && i < |a[this].onClosed| && it == a[this].onClosed[i]
      modifies g.all
      decreases InState(a, Alive), InState(a, Closing), 1
      ensures Announcing(g, a, View(g.all), this, i + 1)
      ensures Calm(g, a, this) && Once(old(View(g.all))) ==> Once(View(g.all))
    {
      hide Inv, Base, InState, Keyed, Owned, Announcing, Served, Listed, Calm, CalmFor, Once;
      WellFormedKeyed(g);
      ghost var w := View(g.all);
      AnnounceNext(g, a, w, this, i);
      if Calm(g, a, this) && Once(w) {
        CallCalm(g, a, w, this, i);
      }
      NoteCall(it, g.all);
      ServeItem(it, |Unacked(a[this].onClosed[..i])|, g);
      if Owes(it) {
        AnnounceOwed(g, a, w, this, i);
      } else {
        AnnounceServed(g, a, w, View(g.all), this, i);
      }
    }
  }

  datatype Option<T> = None | Some(value: T)

  function Plus<T>(s: seq<T>, o: Option<T>): seq<T> {
    if o.Some? then s + [o.value] else s
  }

  /** If `x` alone changed since the view `w`, only the entry of `x` differs. */
  lemma OnlyChanged(all: set<Closeable>, x: Closeable, w: World<Closeable>)
    requires x in all && w.Keys == all && forall y :: y in all && y != x ==> y.Snap() == w[y]
    ensures View(all) == w[x := x.Snap()]
  {
  }

  lemma OnlyTwoChanged(all: set<Closeable>, x: Closeable, y: Closeable, w: World<Closeable>)
    requires x in all && y in all && x != y && w.Keys == all && forall z :: z in all && z != x && z != y ==> z.Snap() == w[z]
    ensures View(all) == w[x := x.Snap()][y := y.Snap()]
  {
  }

  ghost function View(all: set<Closeable>): World<Closeable>
    reads all
  {
    map c | c in all :: c.Snap()
  }

  /** The loop of `remove_be_notified` over one of the queues. */
  method RemoveWho(q: seq<Item<Closeable>>, who: Who<Closeable>) returns (r: seq<Item<Closeable>>)
    ensures r == WithoutWho(q, who)
  {
    r := [];
    for i := 0 to |q|
      invariant r == WithoutWho(q[..i], who)
    {
      assert q[..i + 1][..i] == q[..i];
      if q[i].who != who {
        r := r + [q[i]];
      }
    }
    assert q[..|q|] == q;
  }
}
