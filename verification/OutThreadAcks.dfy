/**
 Acknowledging 'closed' from other threads: the mode in which the subscribers of a
 closed resource count an expected number of acknowledgements down under a mutex.
 Each step below is one uninterrupted action of one thread, so a run is any
 interleaving of the announcing loop with all the acknowledging threads.
 */
module OutThreadAcks {

  /** How far one subscriber is. `LastToAck` has seen the count reach zero and has
      not announced 'all done' yet. */
  datatype Phase = Waiting | Called | Acked | LastToAck | Announced

  /** `subs` are the subscribers of 'closed', `sent` of which the loop has called;
      `queue` holds those of 'all done'. `log` and `fired` record the deliveries of
      'all done' and how often it was announced. */
  datatype Closing<!T> = Closing(
    begun: bool, subs: seq<Phase>, sent: nat, expected: nat, queue: seq<T>, log: seq<T>, fired: nat)

  datatype Step = Begin | Call | Ack(k: nat) | Announce(k: nat)

  function Start<T>(subscribers: nat, queue: seq<T>): Closing<T> {
    Closing(false, seq(subscribers, _ => Waiting), 0, 0, queue, [], 0)
  }

  function FireAllDone<T>(c: Closing<T>): Closing<T> {
    c.(log := c.log + c.queue, queue := [], fired := c.fired + 1)
  }

  predicate Enabled<T>(c: Closing<T>, s: Step) {
    match s
    case Begin => !c.begun
    case Call => c.begun && c.sent < |c.subs|
    case Ack(k) => k < |c.subs| && c.subs[k] == Called
    case Announce(k) => k < |c.subs| && c.subs[k] == LastToAck
  }

  /** The count is a `size_t`: counting down from zero would wrap. */
  const SIZE: int := 0x1_0000_0000_0000_0000

  function Next<T>(c: Closing<T>, s: Step): Closing<T>
    requires Enabled(c, s)
  {
    match s
    case Begin => if |c.subs| == 0 then FireAllDone(c.(begun := true)) else c.(begun := true, expected := |c.subs|)
    case Call => c.(sent := c.sent + 1, subs := c.subs[c.sent := Called])
    case Ack(k) =>
      var remaining: nat := (c.expected - 1) % SIZE;
      c.(expected := remaining, subs := c.subs[k := if remaining == 0 then LastToAck else Acked])
    case Announce(k) => FireAllDone(c.(subs := c.subs[k := Announced]))
  }

  /** The number of subscribers that have not acknowledged. */
  function Owing(subs: seq<Phase>): (n: nat)
    ensures n <= |subs|
  {
    if subs == [] then 0
    else Owing(subs[1..]) + if subs[0].Waiting? || subs[0].Called? then 1 else 0
  }

  lemma {:induction false} OwingUpdate(subs: seq<Phase>, k: nat, p: Phase)
    requires k < |subs|
    ensures Owing(subs[k := p]) == Owing(subs) + (if p.Waiting? || p.Called? then 1 else 0)
                                   - (if subs[k].Waiting? || subs[k].Called? then 1 else 0)
  {
    if k > 0 {
      OwingUpdate(subs[1..], k - 1, p);
      assert subs[k := p][1..] == subs[1..][k - 1 := p];
    } else {
      assert subs[k := p][1..] == subs[1..];
    }
  }

  lemma {:induction false} OwingAll(subs: seq<Phase>)
    requires forall k :: 0 <= k < |subs| ==> subs[k] == Waiting
    ensures Owing(subs) == |subs|
  {
    if subs != [] {
      OwingAll(subs[1..]);
    }
  }

  lemma {:induction false} OwingNone(subs: seq<Phase>, k: nat)
    requires k < |subs| && (subs[k].Waiting? || subs[k].Called?)
    ensures Owing(subs) > 0
  {
    if k > 0 {
      OwingNone(subs[1..], k - 1);
    }
  }

  /** Has this subscriber seen the count reach zero? */
  predicate SawZero(p: Phase) {
    p.LastToAck? || p.Announced?
  }

  ghost predicate Inv<T>(q: seq<T>, c: Closing<T>) {
    && |c.subs| < SIZE && c.sent <= |c.subs|
    && (forall k :: 0 <= k < |c.subs| ==> (c.subs[k] == Waiting <==> k >= c.sent))
    && c.log + c.queue == q
    && (if !c.begun then c.sent == 0 && c.fired == 0 && c.log == []
        else if c.subs == [] then c.fired == 1 && c.queue == []
        else
          && c.expected == Owing(c.subs)
          && (forall i, j :: 0 <= i < j < |c.subs| && SawZero(c.subs[i]) ==> !SawZero(c.subs[j]))
          && (c.expected == 0 <==> exists k :: 0 <= k < |c.subs| && SawZero(c.subs[k]))
          && (forall k :: 0 <= k < |c.subs| && c.subs[k] == Announced ==> c.fired == 1 && c.queue == [])
          && (c.fired > 0 ==> exists k :: 0 <= k < |c.subs| && c.subs[k] == Announced)
          && (c.fired == 0 ==> c.log == []))
  }

  lemma StartInv<T>(subscribers: nat, queue: seq<T>)
    requires subscribers < SIZE
    ensures Inv(queue, Start(subscribers, queue))
  {
  }

  lemma BeginInv<T>(q: seq<T>, c: Closing<T>)
    requires Inv(q, c) && Enabled(c, Begin)
    ensures Inv(q, Next(c, Begin))
  {
    OwingAll(c.subs);
    assert c.log + c.queue + [] == q;
  }

  lemma CallInv<T>(q: seq<T>, c: Closing<T>)
    requires Inv(q, c) && Enabled(c, Call)
    ensures Inv(q, Next(c, Call))
  {
    var d := Next(c, Call);
    OwingUpdate(c.subs, c.sent, Called);
    OwingNone(c.subs, c.sent);
  }

  lemma AckInv<T>(q: seq<T>, c: Closing<T>, k: nat)
    requires Inv(q, c) && Enabled(c, Ack(k))
    ensures Inv(q, Next(c, Ack(k)))
    ensures Next(c, Ack(k)).expected == c.expected - 1
  {
    var d := Next(c, Ack(k));
    OwingNone(c.subs, k);
    OwingUpdate(c.subs, k, d.subs[k]);
    if d.expected == 0 {
      assert SawZero(d.subs[k]);
    }
    forall i | 0 <= i < |d.subs| && i != k ensures d.subs[i] == c.subs[i] && !SawZero(c.subs[i]) {
    }
  }

  lemma AnnounceInv<T>(q: seq<T>, c: Closing<T>, k: nat)
    requires Inv(q, c) && Enabled(c, Announce(k))
    ensures Inv(q, Next(c, Announce(k)))
  {
    var d := Next(c, Announce(k));
    OwingUpdate(c.subs, k, Announced);
    assert SawZero(c.subs[k]) && d.subs[k] == Announced;
    assert d.log + d.queue == c.log + c.queue;
    forall i | 0 <= i < |d.subs| && i != k ensures d.subs[i] == c.subs[i] && !SawZero(c.subs[i]) {
    }
  }

  ghost predicate Run<T>(cs: seq<Closing<T>>, steps: seq<Step>) {
    && |cs| == |steps| + 1
    && forall i {:trigger steps[i]} :: 0 <= i < |steps| ==> Enabled(cs[i], steps[i]) && cs[i + 1] == Next(cs[i], steps[i])
  }

  lemma {:induction false} RunInv<T>(q: seq<T>, cs: seq<Closing<T>>, steps: seq<Step>, i: nat)
    requires Run(cs, steps) && i < |cs| && Inv(q, cs[0])
    ensures Inv(q, cs[i])
  {
    if i > 0 {
      RunInv(q, cs, steps, i - 1);
      match steps[i - 1]
      case Begin => BeginInv(q, cs[i - 1]);
      case Call => CallInv(q, cs[i - 1]);
      case Ack(k) => AckInv(q, cs[i - 1], k);
      case Announce(k) => AnnounceInv(q, cs[i - 1], k);
    }
  }

  /** Once the count is zero nobody is left to acknowledge. */
  lemma NoAckAfterZero<T>(q: seq<T>, cs: seq<Closing<T>>, steps: seq<Step>, i: nat, j: nat)
    requires Run(cs, steps) && i <= j < |steps| && Inv(q, cs[0]) && cs[i].begun && cs[i].expected == 0 && cs[i].subs != []
    ensures !steps[j].Ack?
  {
    ZeroStays(q, cs, steps, i, j);
    RunInv(q, cs, steps, j);
    if steps[j].Ack? {
      OwingNone(cs[j].subs, steps[j].k);
    }
  }

  /** Whoever sees the count reach zero does so after all the subscribers were
      called, and nobody else ever does: over the whole run there is one such step. */
  lemma OneSeesZero<T>(n: nat, q: seq<T>, cs: seq<Closing<T>>, steps: seq<Step>, i: nat, j: nat)
    requires n < SIZE && Run(cs, steps) && cs[0] == Start(n, q) && i < |steps| && j < |steps|
    requires steps[i].Ack? && steps[j].Ack? && cs[i + 1].expected == 0 && cs[j + 1].expected == 0
    ensures i == j && cs[i].sent == |cs[i].subs|
    ensures forall k :: 0 <= k < |cs[i].subs| && k != steps[i].k ==> cs[i].subs[k] == Acked
  {
    var (lo, hi) := if i <= j then (i, j) else (j, i);
    StartInv(n, q);
    RunInv(q, cs, steps, i);
    RunInv(q, cs, steps, i + 1);
    AckInv(q, cs[i], steps[i].k);
    RunInv(q, cs, steps, lo);
    assert cs[lo].subs[steps[lo].k] == Called && cs[lo].begun;
    if cs[i].sent < |cs[i].subs| {
      assert cs[i + 1].subs[cs[i].sent] == Waiting;
      OwingNone(cs[i + 1].subs, cs[i].sent);
    }
    if lo < hi {
      NoAckAfterZero(q, cs, steps, lo + 1, hi);
    }
    forall k | 0 <= k < |cs[i].subs| && k != steps[i].k ensures cs[i].subs[k] == Acked {
      assert cs[i + 1].subs[k] == cs[i].subs[k];
      if cs[i].subs[k].Waiting? || cs[i].subs[k].Called? {
        OwingNone(cs[i + 1].subs, k);
      }
    }
  }

  lemma {:induction false} ZeroStays<T>(q: seq<T>, cs: seq<Closing<T>>, steps: seq<Step>, i: nat, j: nat)
    requires Run(cs, steps) && i <= j < |cs| && Inv(q, cs[0]) && cs[i].begun && cs[i].expected == 0 && cs[i].subs != []
    ensures cs[j].begun && cs[j].expected == 0 && cs[j].subs != []
    decreases j
  {
    if i < j {
      ZeroStays(q, cs, steps, i, j - 1);
      RunInv(q, cs, steps, j - 1);
      match steps[j - 1]
      case Ack(k) => OwingNone(cs[j - 1].subs, k);
      case Begin =>
      case Call =>
      case Announce(_) =>
    }
  }

  /** 'All done' is announced at most once, to every subscriber of it, once and in
      order; and a run in which nothing is left to do has announced it. */
  lemma AllDoneExactlyOnce<T>(n: nat, q: seq<T>, cs: seq<Closing<T>>, steps: seq<Step>, i: nat)
    requires n < SIZE && Run(cs, steps) && cs[0] == Start(n, q) && i < |cs|
    ensures cs[i].fired <= 1 && cs[i].log == (if cs[i].fired == 1 then q else [])
    ensures cs[i].fired == 1 <==> forall s :: !Enabled(cs[i], s)
  {
    StartInv(n, q);
    RunInv(q, cs, steps, i);
    var c := cs[i];
    if c.fired == 1 {
      assert c.log + [] == c.log;
      forall s ensures !Enabled(c, s) {
        if s.Ack? && Enabled(c, s) {
          OwingNone(c.subs, s.k);
        }
        if s.Call? && Enabled(c, s) {
          OwingNone(c.subs, c.sent);
        }
      }
    }
    if forall s :: !Enabled(c, s) {
      assert !Enabled(c, Begin) && !Enabled(c, Call);
      forall k | 0 <= k < |c.subs| ensures c.subs[k] == Acked || c.subs[k] == Announced {
        assert !Enabled(c, Ack(k)) && !Enabled(c, Announce(k));
      }
      if c.subs != [] {
        OwingZero(c.subs);
      }
    }
  }

  lemma {:induction false} OwingZero(subs: seq<Phase>)
    requires forall k :: 0 <= k < |subs| ==> !subs[k].Waiting? && !subs[k].Called?
    ensures Owing(subs) == 0
  {
    if subs != [] {
      OwingZero(subs[1..]);
    }
  }

  /** What is left to do. */
  function Left<T>(c: Closing<T>): int {
    (if c.begun then 0 else 1) + (|c.subs| - c.sent) + Owing(c.subs) + (1 - c.fired)
  }

  lemma StepsUseUp<T>(q: seq<T>, c: Closing<T>, s: Step)
    requires Inv(q, c) && Enabled(c, s)
    ensures Left(Next(c, s)) < Left(c)
  {
    match s
    case Begin =>
    case Call => OwingUpdate(c.subs, c.sent, Called);
    case Ack(k) => OwingUpdate(c.subs, k, Next(c, s).subs[k]);
    case Announce(k) => OwingUpdate(c.subs, k, Announced);
  }

  /** No run goes on for ever: with the theorem above, every run that is not cut
      short ends with 'all done' announced. */
  lemma {:induction false} RunsEnd<T>(n: nat, q: seq<T>, cs: seq<Closing<T>>, steps: seq<Step>, i: nat)
    requires n < SIZE && Run(cs, steps) && cs[0] == Start(n, q) && i < |cs|
    ensures i + Left(cs[i]) <= 2 * n + 2
    ensures i <= 2 * n + 2
    decreases i
  {
    hide Inv, Left, Start, Next;
    StartInv(n, q);
    RunInv(q, cs, steps, i);
    LeftBounds(n, q, cs[i]);
    if i > 0 {
      RunsEnd(n, q, cs, steps, i - 1);
      RunInv(q, cs, steps, i - 1);
      StepsUseUp(q, cs[i - 1], steps[i - 1]);
    }
  }

  lemma LeftBounds<T>(n: nat, q: seq<T>, c: Closing<T>)
    requires n < SIZE && Inv(q, c)
    ensures Left(c) >= 0 && (c == Start(n, q) ==> Left(c) == 2 * n + 2)
  {
    if c == Start(n, q) {
      OwingAll(c.subs);
    }
  }
}
