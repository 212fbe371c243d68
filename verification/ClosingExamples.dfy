/**
 Concrete executions of the closing protocol: one in which `do_close` starts one
 deferred action twice, because nothing records that it was started, and one in
 which an owner announces 'all done' before what it owns.
 */
module ClosingExamples {
  import opened ClosingGraph
  import opened ClosingInvariant
  import opened ClosingTree
  import opened ClosingRegistration
  import opened ClosingRuns
  import opened ClosingOrder
  import opened ClosingMachine

  /** A world of three resources. */
  function Three(x: Res<nat>, y: Res<nat>, z: Res<nat>): (w: World<nat>)
    ensures w.Keys == {0, 1, 2} && w[0] == x && w[1] == y && w[2] == z
  {
    map[0 := x, 1 := y, 2 := z]
  }

  lemma ThreeUpdates(x: Res<nat>, y: Res<nat>, z: Res<nat>, r: Res<nat>)
    ensures Three(x, y, z)[0 := r] == Three(r, y, z)
    ensures Three(x, y, z)[1 := r] == Three(x, r, z)
    ensures Three(x, y, z)[2 := r] == Three(x, y, r)
  {
  }

  // ----- Registering three resources -----

  /** Resource 0 owns `kids`, and `deps` depend on 2. */
  function Family(kids: seq<nat>, deps: seq<nat>): Graph<nat> {
    Graph({0, 1, 2}, map k: nat | k in kids :: 0, map[0 := kids, 1 := [], 2 := []], map[0 := [], 1 := [], 2 := deps],
          map[0 := 2, 1 := 0, 2 := 1], 2)
  }

  ghost predicate Sensible(kids: seq<nat>, deps: seq<nat>) {
    && Distinct(kids) && (forall k :: k in kids ==> k == 1 || k == 2)
    && Distinct(deps) && (forall d :: d in deps ==> d == 1)
  }

  lemma FamilyFacts(kids: seq<nat>, deps: seq<nat>)
    requires Sensible(kids, deps)
    ensures var g := Family(kids, deps);
            && g.all == g.kids.Keys == g.deps.Keys == g.rank.Keys == {0, 1, 2}
            && (forall k :: k in g.owner <==> k in kids) && (forall k :: k in kids ==> g.owner[k] == 0)
            && g.top == 2 && g.rank[0] == 2 && g.rank[1] == 0 && g.rank[2] == 1
            && (forall x, k :: x in g.all ==> (k in g.kids[x] <==> x == 0 && k in kids))
            && (forall x, d :: x in g.all ==> (d in g.deps[x] <==> x == 2 && d in deps))
            && (forall x :: x in g.all ==> Distinct(g.kids[x]) && Distinct(g.deps[x]))
  {
    var g := Family(kids, deps);
    forall x | x in g.all ensures Distinct(g.kids[x]) && Distinct(g.deps[x]) {
    }
  }

  lemma FamilyIsWellFormed(kids: seq<nat>, deps: seq<nat>)
    requires Sensible(kids, deps)
    ensures WellFormed(Family(kids, deps))
  {
    FamilyFacts(kids, deps);
    hide Family, Distinct;
  }

  const DoneToOwner: Item<nat> := Item(Resource(0), External(true), 0)
  const ToOwner: Item<nat> := Item(Resource(0), OwnerDefault, 0)
  const ToDependency: Item<nat> := Item(Resource(2), DependencyDefault, 0)

  function New(): World<nat> {
    Three(Fresh(Deferred), Fresh(Immediate), Fresh(Immediate))
  }

  /** Resource 1 starts to depend on 2, then 0 becomes the owner of 2 and of 1. */
  function Beginning(): World<nat> {
    KidRegistered(KidRegistered(DependentRegistered(New(), 2, 1, 0), 0, 2, DoneToOwner), 0, 1, DoneToOwner)
  }

  function OurGraph(): Graph<nat> {
    Family([2, 1], [1])
  }

  lemma NewIsSound()
    ensures WellFormed(Family([], [])) && Inv(Family([], []), New())
  {
    FamilyIsWellFormed([], []);
    FamilyEmpty();
    hide Family, New, WellFormed, Owned;
    WellFormedKeyed(Family([], []));
    AllFresh(Family([], []), New());
  }

  lemma AllFresh(g: Graph<nat>, w: World<nat>)
    requires Keyed(g) && w.Keys == g.all
    requires forall x :: x in g.all ==> w[x] == Fresh(w[x].action) && g.kids[x] == [] == g.deps[x]
    ensures Inv(g, w)
  {
    hide Sound;
    forall x | x in g.all ensures Sound(g, w, x) {
      FreshSound(g, w, x, w[x].action);
    }
  }

  lemma FamilyEmpty()
    ensures Family([], []).all == New().Keys
    ensures forall x :: x in New() ==> New()[x] == Fresh(New()[x].action)
    ensures forall x :: x in Family([], []).all ==> Family([], []).kids[x] == [] == Family([], []).deps[x]
  {
  }

  /** The world meets all the invariants: registration has kept them. */
  lemma BeginningIsSound()
    ensures WellFormed(OurGraph()) && Inv(OurGraph(), Beginning())
  {
    hide Inv, Owned, WellFormed, Family, KidRegistered, DependentRegistered, New, AddsKid, AddsDependent, MayWait;
    NewIsSound();
    FamilyIsWellFormed([], [1]);
    FamilyIsWellFormed([2], [1]);
    FamilyIsWellFormed([2, 1], [1]);
    FamilySteps();
    RegisteredFields();
    DependentRegisteredKeepsInv(Family([], []), Family([], [1]), New(), 2, 1, 0);
    var w1 := DependentRegistered(New(), 2, 1, 0);
    KidRegisteredKeepsInv(Family([], [1]), Family([2], [1]), w1, 0, 2, DoneToOwner);
    var w2 := KidRegistered(w1, 0, 2, DoneToOwner);
    KidRegisteredKeepsInv(Family([2], [1]), Family([2, 1], [1]), w2, 0, 1, DoneToOwner);
  }

  lemma FamilySteps()
    ensures AddsDependent(Family([], []), Family([], [1]), 2, 1)
    ensures AddsKid(Family([], [1]), Family([2], [1]), 0, 2)
    ensures AddsKid(Family([2], [1]), Family([2, 1], [1]), 0, 1)
  {
    hide AddsKid, AddsDependent, Family;
    assert [] + [1] == [1] && [] + [2] == [2] && [2] + [1] == [2, 1];
    FamilyGrows([], [], 1);
    FamilyGrows([], [1], 2);
    FamilyGrows([2], [1], 1);
  }

  lemma FamilyGrows(kids: seq<nat>, deps: seq<nat>, e: nat)
    requires e == 1 || e == 2
    ensures AddsKid(Family(kids, deps), Family(kids + [e], deps), 0, e)
    ensures e == 1 ==> AddsDependent(Family(kids, deps), Family(kids, deps + [e]), 2, e)
  {
  }

  lemma RegisteredFields()
    ensures var w1 := DependentRegistered(New(), 2, 1, 0);
            var w2 := KidRegistered(w1, 0, 2, DoneToOwner);
            && New().Keys == w1.Keys == w2.Keys == {0, 1, 2}
            && MayWait(New()[2]) && New()[1].state != Closed
            && MayWait(w1[0]) && w1[2].state != Closed && MayWait(w2[0]) && w2[1].state != Closed
  {
  }

  // ----- Closing resource 0 -----

  /** The stages resource 0 goes through. */
  function Owner(i: nat): Res<nat> {
    match i
    case 0 => Fresh(Deferred).(underlying := [2, 1])
    case 1 => Owner(0).(state := Closing)
    case 2 => Owner(1).(underlying := [1])
    case 3 => Owner(2).(runs := 1, backlog := 1)
    case 4 => Owner(3).(underlying := [])
    case _ => Owner(4).(runs := 2)
  }

  /** The stages resource 1 goes through: its dependency was registered before its owner. */
  function First(i: nat): Res<nat> {
    match i
    case 0 => Fresh(Immediate).(onClosed := [ToDependency, ToOwner], onAllDone := [DoneToOwner])
    case 1 => First(0).(state := Closing)
    case 2 => First(1).(runs := 1)
    case 3 => First(2).(state := Closed)
    case 4 => First(3).(notified := [ToDependency])
    case 5 => First(4).(onClosed := [ToOwner])
    case 6 => First(5).(notified := [ToDependency, ToOwner])
    case _ => First(6).(onClosed := [], fired := 1, onAllDone := [], allDoneLog := [DoneToOwner])
  }

  /** The stages resource 2 goes through. */
  function Second(i: nat): Res<nat> {
    match i
    case 0 => Fresh(Immediate).(dependents := [1], onClosed := [ToOwner], onAllDone := [DoneToOwner])
    case 1 => Second(0).(state := Closing)
    case 2 => Second(1).(dependents := [])
    case 3 => Second(2).(runs := 1)
    case 4 => Second(3).(state := Closed)
    case 5 => Second(4).(notified := [ToOwner])
    case _ => Second(5).(onClosed := [], fired := 1, onAllDone := [], allDoneLog := [DoneToOwner])
  }

  function At(i: nat, j: nat, k: nat): World<nat> {
    Three(Owner(i), First(j), Second(k))
  }

  /** What is under way: the loop over what resource 0 owns, then the announcing loop
      of 1 and its acknowledgement, then the announcing loop of 2 and its. */
  function Loop(kids: seq<nat>): seq<Frame<nat>> {
    [CloseNext(0, kids)] + []
  }

  function Announcing(rest: seq<Item<nat>>): seq<Frame<nat>> {
    [AnnounceNext(1, rest)] + Loop([])
  }

  function Acking(owner: nat, rest: seq<Item<nat>>): seq<Frame<nat>> {
    [OnClosedDone(1, Resource(owner), 0)] + Announcing(rest)
  }

  function Inner(): seq<Frame<nat>> {
    [AnnounceNext(2, [])] + Acking(2, [ToOwner])
  }

  function InnerAcking(): seq<Frame<nat>> {
    [OnClosedDone(2, Resource(0), 0)] + Inner()
  }

  /** What the machine goes through. */
  function Trace(i: nat): Machine<nat> {
    match i
    case 0 => Machine(At(0, 0, 0), [Close(0)] + [], [])
    case 1 => Machine(At(1, 0, 0), Loop([2, 1]), [])
    case 2 => Machine(At(1, 0, 0), [Close(2)] + Loop([1]), [])
    case 3 => Machine(At(1, 0, 1), [CloseNext(2, [])] + Loop([1]), [])
    case 4 => Machine(At(1, 0, 1), Loop([1]), [])
    case 5 => Machine(At(1, 0, 1), [Close(1)] + Loop([]), [])
    case 6 => Machine(At(1, 1, 1), [DoClose(1)] + Loop([]), [])
    case 7 => Machine(At(1, 2, 1), [ActionDone(1)] + Loop([]), [])
    case 8 => Machine(At(1, 3, 1), Announcing([ToDependency, ToOwner]), [])
    case 9 => Machine(At(1, 4, 1), [OnClosed(1, ToDependency)] + Announcing([ToOwner]), [])
    case 10 => Machine(At(1, 4, 2), [CheckStart(2)] + Acking(2, [ToOwner]), [])
    case 11 => Machine(At(1, 4, 2), [DoClose(2)] + Acking(2, [ToOwner]), [])
    case 12 => Machine(At(1, 4, 3), [ActionDone(2)] + Acking(2, [ToOwner]), [])
    case 13 => Machine(At(1, 4, 4), [AnnounceNext(2, [ToOwner])] + Acking(2, [ToOwner]), [])
    case 14 => Machine(At(1, 4, 5), [OnClosed(2, ToOwner)] + Inner(), [])
    case 15 => Machine(At(2, 4, 5), [CheckStart(0)] + InnerAcking(), [])
    case 16 => Machine(At(2, 4, 5), [DoClose(0)] + InnerAcking(), [])
    case 17 => Machine(At(3, 4, 5), InnerAcking(), [])
    case 18 => Machine(At(3, 4, 6), Inner(), [2])
    case 19 => Machine(At(3, 4, 6), Acking(2, [ToOwner]), [2])
    case 20 => Machine(At(3, 5, 6), Announcing([ToOwner]), [2])
    case 21 => Machine(At(3, 6, 6), [OnClosed(1, ToOwner)] + Announcing([]), [2])
    case 22 => Machine(At(4, 6, 6), [CheckStart(0)] + Acking(0, []), [2])
    case 23 => Machine(At(4, 6, 6), [DoClose(0)] + Acking(0, []), [2])
    case 24 => Machine(At(5, 6, 6), Acking(0, []), [2])
    case 25 => Machine(At(5, 7, 6), Announcing([]), [2, 1])
    case 26 => Machine(At(5, 7, 6), Loop([]), [2, 1])
    case _ => Machine(At(5, 7, 6), [], [2, 1])
  }

  lemma BeginningStages()
    ensures Beginning() == At(0, 0, 0)
  {
    var w1 := Three(Fresh(Deferred), Fresh(Immediate).(onClosed := [ToDependency]), Fresh(Immediate).(dependents := [1]));
    assert [] + [1] == [1] && [] + [ToDependency] == [ToDependency];
    assert DependentRegistered(New(), 2, 1, 0) == w1;
    var w2 := Three(Fresh(Deferred).(underlying := [2]), w1[1], Second(0));
    assert [] + [2] == [2] && [] + [ToOwner] == [ToOwner] && [] + [DoneToOwner] == [DoneToOwner];
    assert KidRegistered(w1, 0, 2, DoneToOwner) == w2;
    assert [2] + [1] == [2, 1] && [ToDependency] + [ToOwner] == [ToDependency, ToOwner];
    assert KidRegistered(w2, 0, 1, DoneToOwner) == At(0, 0, 0);
  }

  lemma OwnerUpdates()
    ensures Owner(0).(state := Closing) == Owner(1) && Owner(1).(underlying := RemovePtr(Owner(1).underlying, 2)) == Owner(2)
    ensures StartRes(Owner(2)) == Owner(3) && Owner(3).(underlying := RemovePtr(Owner(3).underlying, 1)) == Owner(4)
    ensures StartRes(Owner(4)) == Owner(5)
    ensures Owner(1).underlying == [2, 1] && Owner(2).underlying == [1] && Owner(4).underlying == []
    ensures Owner(1).dependents == Owner(2).dependents == Owner(4).dependents == []
    ensures Owner(2).state == Owner(4).state == Closing && Owner(2).action == Owner(4).action == Deferred
  {
    assert [2, 1][1..] == [1] && [1][1..] == [];
  }

  lemma FirstUpdates()
    ensures First(0).(state := Closing) == First(1) && StartRes(First(1)) == First(2) && CloseRes(First(2)) == First(3)
    ensures First(3).(notified := First(3).notified + [ToDependency]) == First(4) && AckRes(First(4), Resource(2), 0) == First(5)
    ensures First(5).(notified := First(5).notified + [ToOwner]) == First(6) && AckRes(First(6), Resource(0), 0) == First(7)
    ensures First(1).underlying == First(1).dependents == [] && First(1).action == Immediate
    ensures First(3).onClosed == [ToDependency, ToOwner] && First(7).fired == 1
    ensures First(0).state == Alive && First(3).state == First(4).state == First(5).state == First(6).state == First(7).state == Closed
    ensures forall i :: i <= 6 ==> First(i).fired == 0
  {
    assert First(6).onClosed[1..] == [] && First(6).allDoneLog + First(6).onAllDone == [DoneToOwner];
    assert First(4).onClosed[1..] == [ToOwner];
  }

  lemma SecondUpdates()
    ensures Second(0).(state := Closing) == Second(1)
    ensures Second(1).(dependents := RemovePtr(Second(1).dependents, 1),
                       onClosed := WithoutWho(Second(1).onClosed, Resource(1)),
                       onAllDone := WithoutWho(Second(1).onAllDone, Resource(1))) == Second(2)
    ensures StartRes(Second(2)) == Second(3) && CloseRes(Second(3)) == Second(4)
    ensures Second(4).(notified := Second(4).notified + [ToOwner]) == Second(5) && AckRes(Second(5), Resource(0), 0) == Second(6)
    ensures Second(1).underlying == Second(2).underlying == Second(2).dependents == [] && Second(1).dependents == [1]
    ensures Second(2).action == Immediate && Second(2).state == Closing && Second(4).onClosed == [ToOwner]
    ensures Second(0).state == Alive && Second(4).state == Second(5).state == Second(6).state == Closed
    ensures Second(6).fired == 1 && forall i :: i <= 5 ==> Second(i).fired == 0
  {
    assert [1][1..] == [];
    assert Second(5).onClosed[1..] == [] && Second(5).allDoneLog + Second(5).onAllDone == [DoneToOwner];
  }

  lemma AtUpdates()
    ensures forall i, j, k {:trigger At(i, j, k)} ::
              var w := At(i, j, k); w.Keys == {0, 1, 2} && w[0] == Owner(i) && w[1] == First(j) && w[2] == Second(k)
    ensures forall i, j, k, a {:trigger At(i, j, k)[0 := Owner(a)]} :: At(i, j, k)[0 := Owner(a)] == At(a, j, k)
    ensures forall i, j, k, a {:trigger At(i, j, k)[1 := First(a)]} :: At(i, j, k)[1 := First(a)] == At(i, a, k)
    ensures forall i, j, k, a {:trigger At(i, j, k)[2 := Second(a)]} :: At(i, j, k)[2 := Second(a)] == At(i, j, a)
  {
    hide Owner, First, Second;
    forall i, j, k, a ensures At(i, j, k)[0 := Owner(a)] == At(a, j, k) && At(i, j, k)[1 := First(a)] == At(i, a, k)
                           && At(i, j, k)[2 := Second(a)] == At(i, j, a) {
      ThreeUpdates(Owner(i), First(j), Second(k), Owner(a));
      ThreeUpdates(Owner(i), First(j), Second(k), First(a));
      ThreeUpdates(Owner(i), First(j), Second(k), Second(a));
    }
  }

  lemma Joins()
    ensures [2] + [1] == [2, 1] && [1] + [] == [1] && [] + [2] == [2] && [] + [0] == [0] && [0] + [1] == [0, 1]
    ensures [ToDependency] + [ToOwner] == [ToDependency, ToOwner] && [ToOwner] + [] == [ToOwner]
  {
  }

  /** Resource 0 closes 2, which waits, and then 1. */
  lemma Descending(i: nat)
    requires 0 <= i < 6
    ensures Ticks(Trace, i)
  {
    AtUpdates();
    Joins();
    OwnerUpdates();
    FirstUpdates();
    SecondUpdates();
    hide Owner, First, Second, At, Steps, StartRes, CloseRes, AckRes, RemovePtr, WithoutWho;
    match i
    case 0 => Closes(At(0, 0, 0), 0, At(1, 0, 0), CloseNext(0, [2, 1]), [], []);
    case 1 => Descends(At(1, 0, 0), 0, 2, [1], [], []);
    case 2 => Closes(At(1, 0, 0), 2, At(1, 0, 1), CloseNext(2, []), Loop([1]), []);
    case 3 => Descends(At(1, 0, 1), 2, 0, [], Loop([1]), []);
    case 4 => Descends(At(1, 0, 1), 0, 1, [], [], []);
    case _ => Closes(At(1, 0, 1), 1, At(1, 1, 1), DoClose(1), Loop([]), []);
  }

  /** Resource 1 closes, and 2 with it. */
  lemma BothClose(i: nat)
    requires 6 <= i < 13
    ensures Ticks(Trace, i)
  {
    AtUpdates();
    Joins();
    FirstUpdates();
    SecondUpdates();
    hide Owner, First, Second, At, Steps, StartRes, CloseRes, AckRes, RemovePtr, WithoutWho;
    match i
    case 6 => Starts(At(1, 1, 1), 1, At(1, 2, 1), Loop([]), []);
    case 7 => Completes(At(1, 2, 1), 1, At(1, 3, 1), Loop([]), []);
    case 8 => Announces(At(1, 3, 1), 1, ToDependency, [ToOwner], At(1, 4, 1), Loop([]), []);
    case 9 => CallsDependency(At(1, 4, 1), 1, 2, 0, At(1, 4, 2), Announcing([ToOwner]), []);
    case 10 => Checks(At(1, 4, 2), 2, Acking(2, [ToOwner]), []);
    case 11 => Starts(At(1, 4, 2), 2, At(1, 4, 3), Acking(2, [ToOwner]), []);
    case _ => Completes(At(1, 4, 3), 2, At(1, 4, 4), Acking(2, [ToOwner]), []);
  }

  /** Resource 2 calls its owner, which starts. */
  lemma StartsOnce(i: nat)
    requires 13 <= i < 17
    ensures Ticks(Trace, i)
  {
    AtUpdates();
    Joins();
    OwnerUpdates();
    FirstUpdates();
    SecondUpdates();
    hide Owner, First, Second, At, Steps, StartRes, CloseRes, AckRes, RemovePtr, WithoutWho;
    match i
    case 13 => Announces(At(1, 4, 4), 2, ToOwner, [], At(1, 4, 5), Acking(2, [ToOwner]), []);
    case 14 => CallsOwner(At(1, 4, 5), 2, 0, 0, At(2, 4, 5), Inner(), []);
    case 15 => Checks(At(2, 4, 5), 0, InnerAcking(), []);
    case _ => Starts(At(2, 4, 5), 0, At(3, 4, 5), InnerAcking(), []);
  }

  /** Resource 2 and what it waited for are acknowledged. */
  lemma SecondIsDone(i: nat)
    requires 17 <= i < 20
    ensures Ticks(Trace, i)
  {
    AtUpdates();
    Joins();
    FirstUpdates();
    SecondUpdates();
    hide Owner, First, Second, At, Steps, StartRes, CloseRes, AckRes, RemovePtr, WithoutWho;
    match i
    case 17 => Acknowledges(At(3, 4, 5), 2, Resource(0), 0, At(3, 4, 6), Inner(), []);
    case 18 => AnnouncesLast(At(3, 4, 6), 2, Acking(2, [ToOwner]), [2]);
    case _ => Acknowledges(At(3, 4, 6), 1, Resource(2), 0, At(3, 5, 6), Announcing([ToOwner]), [2]);
  }

  /** Resource 1 calls its owner, which is ready again. */
  lemma OwnerIsReady(i: nat)
    requires 20 <= i < 23
    ensures Ticks(Trace, i)
  {
    AtUpdates();
    Joins();
    OwnerUpdates();
    FirstUpdates();
    hide Owner, First, Second, At, Steps, StartRes, CloseRes, AckRes, RemovePtr, WithoutWho;
    match i
    case 20 => Announces(At(3, 5, 6), 1, ToOwner, [], At(3, 6, 6), Loop([]), [2]);
    case 21 => CallsOwner(At(3, 6, 6), 1, 0, 0, At(4, 6, 6), Announcing([]), [2]);
    case _ => Checks(At(4, 6, 6), 0, Acking(0, []), [2]);
  }

  /** It starts again. */
  lemma StartsTwice(i: nat)
    requires 23 <= i < 25
    ensures Ticks(Trace, i)
  {
    AtUpdates();
    Joins();
    OwnerUpdates();
    FirstUpdates();
    hide Owner, First, Second, At, Steps, StartRes, CloseRes, AckRes, RemovePtr, WithoutWho;
    match i
    case 23 => Starts(At(4, 6, 6), 0, At(5, 6, 6), Acking(0, []), [2]);
    case _ => Acknowledges(At(5, 6, 6), 1, Resource(0), 0, At(5, 7, 6), Announcing([]), [2]);
  }

  /** The calls return. */
  lemma Returns(i: nat)
    requires 25 <= i < 27
    ensures Ticks(Trace, i)
  {
    AtUpdates();
    Joins();
    hide Owner, First, Second, At, Steps, StartRes, CloseRes, AckRes, RemovePtr, WithoutWho;
    match i
    case 25 => AnnouncesLast(At(5, 7, 6), 1, Loop([]), [2, 1]);
    case _ => Descends(At(5, 7, 6), 0, 0, [], [], [2, 1]);
  }

  // ----- An owner ahead of what it owns -----

  /** The stages of an owner whose action is immediate. */
  function Parent(i: nat): Res<nat> {
    match i
    case 0 => Fresh(Immediate).(underlying := [1])
    case 1 => Parent(0).(state := Closing)
    case 2 => Parent(1).(underlying := [])
    case 3 => Parent(2).(runs := 1)
    case _ => Parent(3).(state := Closed, fired := 1)
  }

  /** The stages of the only resource it owns. */
  function Child(i: nat): Res<nat> {
    match i
    case 0 => Fresh(Immediate).(onClosed := [ToOwner], onAllDone := [DoneToOwner])
    case 1 => Child(0).(state := Closing)
    case 2 => Child(1).(runs := 1)
    case 3 => Child(2).(state := Closed)
    case 4 => Child(3).(notified := [ToOwner])
    case _ => Child(4).(onClosed := [], fired := 1, onAllDone := [], allDoneLog := [DoneToOwner])
  }

  function Both(i: nat, j: nat): World<nat> {
    Three(Parent(i), Child(j), Fresh(Immediate))
  }

  /** What the machine goes through when the owner is closed. */
  function Ahead(i: nat): Machine<nat> {
    match i
    case 0 => Machine(Both(0, 0), [Close(0)] + [], [])
    case 1 => Machine(Both(1, 0), Loop([1]), [])
    case 2 => Machine(Both(1, 0), [Close(1)] + Loop([]), [])
    case 3 => Machine(Both(1, 1), [DoClose(1)] + Loop([]), [])
    case 4 => Machine(Both(1, 2), [ActionDone(1)] + Loop([]), [])
    case 5 => Machine(Both(1, 3), Announcing([ToOwner]), [])
    case 6 => Machine(Both(1, 4), [OnClosed(1, ToOwner)] + Announcing([]), [])
    case 7 => Machine(Both(2, 4), [CheckStart(0)] + Acking(0, []), [])
    case 8 => Machine(Both(2, 4), [DoClose(0)] + Acking(0, []), [])
    case 9 => Machine(Both(3, 4), [ActionDone(0)] + Acking(0, []), [])
    case 10 => Machine(Both(4, 4), [AnnounceNext(0, [])] + Acking(0, []), [0])
    case 11 => Machine(Both(4, 4), Acking(0, []), [0])
    case 12 => Machine(Both(4, 5), Announcing([]), [0, 1])
    case 13 => Machine(Both(4, 5), Loop([]), [0, 1])
    case _ => Machine(Both(4, 5), [], [0, 1])
  }

  lemma ParentUpdates()
    ensures Parent(0).(state := Closing) == Parent(1) && Parent(1).(underlying := RemovePtr(Parent(1).underlying, 1)) == Parent(2)
    ensures StartRes(Parent(2)) == Parent(3) && CloseRes(Parent(3)) == Parent(4)
    ensures Parent(1).underlying == [1] && Parent(2).underlying == Parent(1).dependents == Parent(2).dependents == []
    ensures Parent(2).state == Closing && Parent(2).action == Immediate && Parent(4).onClosed == []
    ensures Parent(4).fired == 1 && Parent(3).fired == 0
  {
    assert [1][1..] == [] && Parent(3).allDoneLog + Parent(3).onAllDone == [];
  }

  lemma ChildUpdates()
    ensures Child(0).(state := Closing) == Child(1) && StartRes(Child(1)) == Child(2) && CloseRes(Child(2)) == Child(3)
    ensures Child(3).(notified := Child(3).notified + [ToOwner]) == Child(4) && AckRes(Child(4), Resource(0), 0) == Child(5)
    ensures Child(1).underlying == Child(1).dependents == [] && Child(1).action == Immediate && Child(3).onClosed == [ToOwner]
    ensures Child(0).state == Alive && Child(3).state == Child(4).state == Closed
    ensures Child(2).fired == Child(3).fired == Child(4).fired == 0 && Child(5).fired == 1
  {
    assert Child(4).onClosed[1..] == [] && Child(4).allDoneLog + Child(4).onAllDone == [DoneToOwner];
  }

  lemma BothUpdates()
    ensures forall i, j {:trigger Both(i, j)} ::
              var w := Both(i, j); w.Keys == {0, 1, 2} && w[0] == Parent(i) && w[1] == Child(j)
    ensures forall i, j, a {:trigger Both(i, j)[0 := Parent(a)]} :: Both(i, j)[0 := Parent(a)] == Both(a, j)
    ensures forall i, j, a {:trigger Both(i, j)[1 := Child(a)]} :: Both(i, j)[1 := Child(a)] == Both(i, a)
  {
    hide Parent, Child;
    forall i, j, a ensures Both(i, j)[0 := Parent(a)] == Both(a, j) && Both(i, j)[1 := Child(a)] == Both(i, a) {
      ThreeUpdates(Parent(i), Child(j), Fresh(Immediate), Parent(a));
      ThreeUpdates(Parent(i), Child(j), Fresh(Immediate), Child(a));
    }
  }

  /** The child is told to close and closes. */
  lemma ChildCloses(i: nat)
    requires 0 <= i < 6
    ensures Ticks(Ahead, i)
  {
    BothUpdates();
    Joins();
    ParentUpdates();
    ChildUpdates();
    hide Parent, Child, Both, Steps, StartRes, CloseRes, AckRes, RemovePtr, WithoutWho;
    match i
    case 0 => Closes(Both(0, 0), 0, Both(1, 0), CloseNext(0, [1]), [], []);
    case 1 => Descends(Both(1, 0), 0, 1, [], [], []);
    case 2 => Closes(Both(1, 0), 1, Both(1, 1), DoClose(1), Loop([]), []);
    case 3 => Starts(Both(1, 1), 1, Both(1, 2), Loop([]), []);
    case 4 => Completes(Both(1, 2), 1, Both(1, 3), Loop([]), []);
    case _ => Announces(Both(1, 3), 1, ToOwner, [], Both(1, 4), Loop([]), []);
  }

  /** Its owner closes with it. */
  lemma ParentCloses(i: nat)
    requires 6 <= i < 10
    ensures Ticks(Ahead, i)
  {
    BothUpdates();
    Joins();
    ParentUpdates();
    ChildUpdates();
    hide Parent, Child, Both, Steps, StartRes, CloseRes, AckRes, RemovePtr, WithoutWho;
    match i
    case 6 => CallsOwner(Both(1, 4), 1, 0, 0, Both(2, 4), Announcing([]), []);
    case 7 => Checks(Both(2, 4), 0, Acking(0, []), []);
    case 8 => Starts(Both(2, 4), 0, Both(3, 4), Acking(0, []), []);
    case _ => Completes(Both(3, 4), 0, Both(4, 4), Acking(0, []), []);
  }

  /** Only then is the child acknowledged. */
  lemma ChildIsLast(i: nat)
    requires 10 <= i < 14
    ensures Ticks(Ahead, i)
  {
    BothUpdates();
    Joins();
    ParentUpdates();
    ChildUpdates();
    hide Parent, Child, Both, Steps, StartRes, CloseRes, AckRes, RemovePtr, WithoutWho;
    match i
    case 10 => AnnouncesLast(Both(4, 4), 0, Acking(0, []), [0]);
    case 11 => Acknowledges(Both(4, 4), 1, Resource(0), 0, Both(4, 5), Announcing([]), [0]);
    case 12 => AnnouncesLast(Both(4, 5), 1, Loop([]), [0, 1]);
    case _ => Descends(Both(4, 5), 0, 0, [], [], [0, 1]);
  }

  /** The owner of one resource, both with immediate actions. */
  function Pair(): World<nat> {
    KidRegistered(Three(Fresh(Immediate), Fresh(Immediate), Fresh(Immediate)), 0, 1, DoneToOwner)
  }

  /** An owner announces 'all done' before what it owns does, in a run from a world
      that meets all the invariants. */
  lemma OwnerIsAhead()
    ensures WellFormed(Family([1], [])) && Inv(Family([1], []), Pair())
    ensures Execution(Ahead, 14, Pair(), 0) && Ahead(14).announced == [0, 1]
  {
    PairIsSound();
    PairStages();
    hide Inv, WellFormed, Family, Owned, KidRegistered, CanTick, Tick;
    forall i: nat | i < 14 ensures Ticks(Ahead, i) {
      if i < 6 {
        ChildCloses(i);
      } else if i < 10 {
        ParentCloses(i);
      } else {
        ChildIsLast(i);
      }
    }
  }

  lemma PairStages()
    ensures Pair() == Three(Parent(0), Child(0), Fresh(Immediate))
  {
    var w := Three(Fresh(Immediate), Fresh(Immediate), Fresh(Immediate));
    assert [] + [1] == [1] && [] + [ToOwner] == [ToOwner] && [] + [DoneToOwner] == [DoneToOwner];
  }

  lemma PairIsSound()
    ensures WellFormed(Family([1], [])) && Inv(Family([1], []), Pair())
  {
    hide Family, WellFormed, Owned, KidRegistered, AddsKid, MayWait, Inv, Three, Fresh;
    var w := Three(Fresh(Immediate), Fresh(Immediate), Fresh(Immediate));
    assert [] + [1] == [1];
    FamilyIsWellFormed([], []);
    FamilyIsWellFormed([1], []);
    FamilyGrows([], [], 1);
    WellFormedKeyed(Family([], []));
    PairFacts();
    AllFresh(Family([], []), w);
    KidRegisteredKeepsInv(Family([], []), Family([1], []), w, 0, 1, DoneToOwner);
  }

  lemma PairFacts()
    ensures var w, g := Three(Fresh(Immediate), Fresh(Immediate), Fresh(Immediate)), Family([], []);
            && w.Keys == g.all && MayWait(w[0]) && w[1].state != Closed
            && (forall x :: x in g.all ==> w[x] == Fresh(w[x].action) && g.kids[x] == [] == g.deps[x])
  {
  }

  // ----- The deferred action -----

  /** One call of `close` starts the deferred action of resource 0 twice, from a world
      that registration has built. */
  lemma ActionRunsTwice()
    ensures WellFormed(OurGraph()) && Inv(OurGraph(), Beginning())
    ensures Execution(Trace, 27, Beginning(), 0)
    ensures 0 in Trace(27).w && Trace(27).w[0].action == Deferred && Trace(27).w[0].runs == 2
  {
    BeginningIsSound();
    BeginningStages();
    OwnerUpdates();
    hide Inv, WellFormed, Family, Owned, KidRegistered, DependentRegistered, CanTick, Tick, Beginning;
    forall i: nat | i < 27 ensures Ticks(Trace, i) {
      if i < 6 {
        Descending(i);
      } else if i < 13 {
        BothClose(i);
      } else if i < 17 {
        StartsOnce(i);
      } else if i < 20 {
        SecondIsDone(i);
      } else if i < 23 {
        OwnerIsReady(i);
      } else if i < 25 {
        StartsTwice(i);
      } else {
        Returns(i);
      }
    }
  }

  lemma EndIsSound()
    ensures WellFormed(OurGraph()) && Inv(OurGraph(), At(5, 7, 6)) && Quiet(At(5, 7, 6))
  {
    hide Family, WellFormed, Keyed, Owned, At, Sound, Settled;
    FamilyIsWellFormed([2, 1], [1]);
    WellFormedKeyed(OurGraph());
    EndFacts();
    EndKids();
    EndSettled();
    forall x | x in OurGraph().all ensures Sound(OurGraph(), At(5, 7, 6), x) {
      EndSound(x);
    }
  }

  lemma EndSound(x: nat)
    requires x in OurGraph().all && Keyed(OurGraph())
    ensures Sound(OurGraph(), At(5, 7, 6), x)
  {
    EndFacts();
    EndKids();
    hide Family, At, Sound, Owned, Keyed, WellFormed;
    BareSound(OurGraph(), At(5, 7, 6), x);
  }

  lemma EndSettled()
    ensures var w := At(5, 7, 6); forall x {:trigger Settled(w, x)} :: x in w ==> Settled(w, x)
  {
    EndFacts();
    hide At;
  }

  lemma EndKids()
    ensures var g := OurGraph();
            && g.all == {0, 1, 2}
            && forall x, k :: x in g.all && (k in g.kids[x] || k in g.deps[x]) ==> k == 1 || k == 2
  {
    FamilyFacts([2, 1], [1]);
    hide Family;
  }

  lemma BareSound(g: Graph<nat>, w: World<nat>, x: nat)
    requires Keyed(g) && w.Keys == g.all && x in g.all
    requires w[x].underlying == [] == w[x].dependents && w[x].onClosed == [] && w[x].onAllDone == [] && AllDoneOnce(w[x])
    requires forall k :: k in g.kids[x] || k in g.deps[x] ==> w[k].state == Closed
    ensures Sound(g, w, x)
  {
  }

  lemma EndFacts()
    ensures var w := At(5, 7, 6);
            && w.Keys == {0, 1, 2} && w[0].state == Closing && w[1].state == w[2].state == Closed
            && w[0].action == Deferred && w[1].action == w[2].action == Immediate
            && w[0].runs == 2 && w[0].backlog == 1 && w[1].runs == w[2].runs == 1
            && (forall x :: x in w ==> w[x].underlying == [] && w[x].dependents == [] && w[x].onClosed == [] && w[x].onAllDone == [])
            && w[0].fired == 0 && w[1].fired == w[2].fired == 1 && w[0].allDoneLog == w[0].notified == []
  {
  }

  /** The queue of resource 1 was not filled in order: 0 waits for 2 and comes after it. */
  lemma NotInOrder()
    ensures WellFormed(OurGraph()) && !InOrder(OurGraph(), Beginning())
  {
    FamilyIsWellFormed([2, 1], [1]);
    FamilyFacts([2, 1], [1]);
    BeginningStages();
    FirstQueue();
    var g, w := OurGraph(), Beginning();
    hide Family, WellFormed, Owned, Beginning, KidRegistered, DependentRegistered, At, First, Second, Owner;
    assert Awaits(g, 0, 0);
    AwaitsFurther(g, 0, 0, 2);
    assert !QueueInOrder(g, w[1].onClosed) by {
      hide Awaits;
      assert w[1].onClosed[0].who.res == 2 && w[1].onClosed[1].who.res == 0;
    }
  }

  lemma FirstQueue()
    ensures At(0, 0, 0).Keys == {0, 1, 2} && At(0, 0, 0)[1].onClosed == [ToDependency, ToOwner]
  {
  }

  /** The count of starts applies to this run: the action is first started at the
      17th step, while resource 1 is still listed, and so it is started twice. */
  lemma CountApplies()
    ensures var w, v := Trace(16).w, Trace(27).w;
            && Trace(16).stack[0] == DoClose(0) && w[0].runs == 0 && w[0].underlying == [1]
            && WellFormed(OurGraph()) && Inv(OurGraph(), v) && Quiet(v) && Advanced(StartRes(w[0]), v[0])
            && v[0].runs == 1 + |w[0].underlying| + |w[0].dependents| == 2
  {
    hide Inv, Quiet, WellFormed, Family, Owned, First, Second;
    EndIsSound();
    EndKids();
    OwnerUpdates();
    assert Advanced(StartRes(Owner(2)), Owner(5));
    StartedOnceExactly(OurGraph(), At(2, 4, 5), At(5, 7, 6), 0);
  }
}
