/**
 The closing protocol as a machine that runs one statement at a time, with the
 calls that are under way on a stack.  It decides everything the program decides,
 in the program's order, and so tells what a given graph of resources does.
 */
module ClosingMachine {
  import opened ClosingGraph
  import opened ClosingInvariant

  /** A call or a loop that is under way, with what it still has to do. */
  datatype Frame<R> =
    | Close(x: R)
    | CloseNext(x: R, kids: seq<R>)
    | CheckStart(x: R)
    | DoClose(x: R)
    | ActionDone(x: R)
    | AnnounceNext(x: R, rest: seq<Item<R>>)
    | OnClosed(x: R, it: Item<R>)
    | OnClosedDone(x: R, who: Who<R>, data: int)

  /** `announced` are the resources that have announced 'all done', in order. */
  datatype Machine<R> = Machine(w: World<R>, stack: seq<Frame<R>>, announced: seq<R>)

  ghost predicate CanDo<R>(w: World<R>, f: Frame<R>) {
    f.x in w && (f.OnClosed? && f.it.who.Resource? ==> f.it.who.res in w)
  }

  ghost predicate CanTick<R>(m: Machine<R>) {
    m.stack != [] && CanDo(m.w, m.stack[0])
  }

  /** 'All done' is announced by `x` if its record says so. */
  function Fired<R(==)>(announced: seq<R>, x: R, before: Res<R>, after: Res<R>): seq<R> {
    if after.fired > before.fired then announced + [x] else announced
  }

  /** The frame `f`, with the frames `below` under it, does its next step. */
  ghost function Do<R>(w: World<R>, f: Frame<R>, below: seq<Frame<R>>, announced: seq<R>): Machine<R>
    requires CanDo(w, f)
  {
    match f
    case Close(x) =>
      var v := w[x := w[x].(state := Closing)];
      Machine(v, [if BlockersClosed(v, x) then DoClose(x) else CloseNext(x, v[x].underlying)] + below, announced)
    case CloseNext(x, kids) =>
      Machine(w, if kids == [] then below else [Close(kids[0])] + ([CloseNext(x, kids[1..])] + below), announced)
    case CheckStart(x) =>
      Machine(w, if w[x].state == Closing && BlockersClosed(w, x) then [DoClose(x)] + below else below, announced)
    case DoClose(x) =>
      Machine(w[x := StartRes(w[x])], if w[x].action == Immediate then [ActionDone(x)] + below else below, announced)
    case ActionDone(x) =>
      var r := CloseRes(w[x]);
      Machine(w[x := r], [AnnounceNext(x, r.onClosed)] + below, Fired(announced, x, w[x], r))
    case AnnounceNext(x, rest) =>
      if rest == [] then Machine(w, below, announced)
      else Machine(w[x := w[x].(notified := w[x].notified + [rest[0]])],
                   [OnClosed(x, rest[0])] + ([AnnounceNext(x, rest[1..])] + below), announced)
    case OnClosed(x, it) =>
      var done := OnClosedDone(x, it.who, it.data);
      (match it.cb
       case OwnerDefault =>
         if it.who.Outside? then Machine(w, below, announced)
         else
           var o := it.who.res;
           Machine(w[o := w[o].(underlying := RemovePtr(w[o].underlying, x))], [CheckStart(o)] + ([done] + below), announced)
       case DependencyDefault =>
         if it.who.Outside? then Machine(w, below, announced)
         else
           var o := it.who.res;
           Machine(w[o := w[o].(dependents := RemovePtr(w[o].dependents, x),
                                onClosed := WithoutWho(w[o].onClosed, Resource(x)),
                                onAllDone := WithoutWho(w[o].onAllDone, Resource(x)))],
                   [CheckStart(o)] + ([done] + below), announced)
       case External(acksNow) => Machine(w, if acksNow then [done] + below else below, announced))
    case OnClosedDone(x, who, data) =>
      var r := AckRes(w[x], who, data);
      Machine(w[x := r], below, Fired(announced, x, w[x], r))
  }

  /** The first frame does its next step. */
  ghost function Tick<R>(m: Machine<R>): Machine<R>
    requires CanTick(m)
  {
    Do(m.w, m.stack[0], m.stack[1..], m.announced)
  }

  ghost predicate Steps<R>(m: Machine<R>, n: Machine<R>) {
    CanTick(m) && n == Tick(m)
  }

  lemma TopSteps<R>(w: World<R>, f: Frame<R>, below: seq<Frame<R>>, announced: seq<R>)
    requires CanDo(w, f)
    ensures Steps(Machine(w, [f] + below, announced), Do(w, f, below, announced))
  {
    hide Do, CanDo;
    assert ([f] + below)[1..] == below;
  }

  // ----- One step of each kind of frame -----

  lemma Closes<R>(w: World<R>, x: R, v: World<R>, next: Frame<R>, below: seq<Frame<R>>, announced: seq<R>)
    requires x in w && v == w[x := w[x].(state := Closing)]
    requires next == if BlockersClosed(v, x) then DoClose(x) else CloseNext(x, v[x].underlying)
    ensures Steps(Machine(w, [Close(x)] + below, announced), Machine(v, [next] + below, announced))
  {
    hide BlockersClosed;
    TopSteps(w, Close(x), below, announced);
  }

  lemma Descends<R>(w: World<R>, x: R, kid: R, kids: seq<R>, below: seq<Frame<R>>, announced: seq<R>)
    requires x in w
    ensures Steps(Machine(w, [CloseNext(x, [kid] + kids)] + below, announced),
                  Machine(w, [Close(kid)] + ([CloseNext(x, kids)] + below), announced))
    ensures Steps(Machine(w, [CloseNext(x, [])] + below, announced), Machine(w, below, announced))
  {
    TopSteps(w, CloseNext(x, [kid] + kids), below, announced);
    TopSteps(w, CloseNext(x, []), below, announced);
    assert ([kid] + kids)[1..] == kids;
  }

  lemma Checks<R>(w: World<R>, x: R, below: seq<Frame<R>>, announced: seq<R>)
    requires x in w && w[x].state == Closing && BlockersClosed(w, x)
    ensures Steps(Machine(w, [CheckStart(x)] + below, announced), Machine(w, [DoClose(x)] + below, announced))
  {
    hide BlockersClosed;
    TopSteps(w, CheckStart(x), below, announced);
  }

  lemma Starts<R>(w: World<R>, x: R, v: World<R>, below: seq<Frame<R>>, announced: seq<R>)
    requires x in w && v == w[x := StartRes(w[x])]
    ensures Steps(Machine(w, [DoClose(x)] + below, announced),
                  Machine(v, if w[x].action == Immediate then [ActionDone(x)] + below else below, announced))
  {
    hide StartRes;
    TopSteps(w, DoClose(x), below, announced);
  }

  lemma Completes<R>(w: World<R>, x: R, v: World<R>, below: seq<Frame<R>>, announced: seq<R>)
    requires x in w && v == w[x := CloseRes(w[x])]
    ensures Steps(Machine(w, [ActionDone(x)] + below, announced),
                  Machine(v, [AnnounceNext(x, v[x].onClosed)] + below, Fired(announced, x, w[x], v[x])))
  {
    hide CloseRes;
    TopSteps(w, ActionDone(x), below, announced);
  }

  lemma Announces<R>(w: World<R>, x: R, it: Item<R>, rest: seq<Item<R>>, v: World<R>, below: seq<Frame<R>>, announced: seq<R>)
    requires x in w && v == w[x := w[x].(notified := w[x].notified + [it])]
    ensures Steps(Machine(w, [AnnounceNext(x, [it] + rest)] + below, announced),
                  Machine(v, [OnClosed(x, it)] + ([AnnounceNext(x, rest)] + below), announced))
  {
    TopSteps(w, AnnounceNext(x, [it] + rest), below, announced);
    assert ([it] + rest)[1..] == rest;
  }

  lemma AnnouncesLast<R>(w: World<R>, x: R, below: seq<Frame<R>>, announced: seq<R>)
    requires x in w
    ensures Steps(Machine(w, [AnnounceNext(x, [])] + below, announced), Machine(w, below, announced))
  {
    TopSteps(w, AnnounceNext(x, []), below, announced);
  }

  lemma CallsOwner<R>(w: World<R>, x: R, o: R, data: int, v: World<R>, below: seq<Frame<R>>, announced: seq<R>)
    requires x in w && o in w && v == w[o := w[o].(underlying := RemovePtr(w[o].underlying, x))]
    ensures Steps(Machine(w, [OnClosed(x, Item(Resource(o), OwnerDefault, data))] + below, announced),
                  Machine(v, [CheckStart(o)] + ([OnClosedDone(x, Resource(o), data)] + below), announced))
  {
    hide RemovePtr;
    TopSteps(w, OnClosed(x, Item(Resource(o), OwnerDefault, data)), below, announced);
  }

  lemma CallsDependency<R>(w: World<R>, x: R, o: R, data: int, v: World<R>, below: seq<Frame<R>>, announced: seq<R>)
    requires x in w && o in w
    requires v == w[o := w[o].(dependents := RemovePtr(w[o].dependents, x), onClosed := WithoutWho(w[o].onClosed, Resource(x)),
                               onAllDone := WithoutWho(w[o].onAllDone, Resource(x)))]
    ensures Steps(Machine(w, [OnClosed(x, Item(Resource(o), DependencyDefault, data))] + below, announced),
                  Machine(v, [CheckStart(o)] + ([OnClosedDone(x, Resource(o), data)] + below), announced))
  {
    hide RemovePtr, WithoutWho;
    TopSteps(w, OnClosed(x, Item(Resource(o), DependencyDefault, data)), below, announced);
  }

  lemma Acknowledges<R>(w: World<R>, x: R, who: Who<R>, data: int, v: World<R>, below: seq<Frame<R>>, announced: seq<R>)
    requires x in w && v == w[x := AckRes(w[x], who, data)]
    ensures Steps(Machine(w, [OnClosedDone(x, who, data)] + below, announced), Machine(v, below, Fired(announced, x, w[x], v[x])))
  {
    hide AckRes;
    TopSteps(w, OnClosedDone(x, who, data), below, announced);
  }

  /** `trace` is what the machine goes through in `n` steps, from the call of `close`
      on `root` until it returns. */
  ghost predicate Execution<R>(trace: nat -> Machine<R>, n: nat, w: World<R>, root: R) {
    && trace(0) == Machine(w, [Close(root)], []) && trace(n).stack == []
    && (forall i: nat {:trigger Ticks(trace, i)} :: i < n ==> Ticks(trace, i))
  }

  ghost predicate Ticks<R>(trace: nat -> Machine<R>, i: nat) {
    Steps(trace(i), trace(i + 1))
  }
}
