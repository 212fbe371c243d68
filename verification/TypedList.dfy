/**
 The intrusive doubly linked list: nodes on the heap, proved against sequences.
 */
module TypedLists {
  import ClosingGraph

  class Node<T> {
    var prev: Node?<T>
    var next: Node?<T>
    var data: T
    const copy: T -> T
    /** How often the node was destroyed; a destroyed node may not be read any more. */
    ghost var destroyed: nat

    /** `list_node_create`. */
    constructor (data: T, copy: T -> T)
      ensures this.data == data && this.copy == copy && prev == null && next == null && destroyed == 0
    {
      this.data, this.copy := data, copy;
      prev, next := null, null;
      destroyed := 0;
    }

    /** `list_node_destroy`. */
    method Destroy()
      requires destroyed == 0
      modifies this`destroyed
      ensures destroyed == 1
    {
      destroyed := 1;
    }
  }

  /** `list_node_clone`: the copy function of the node itself copies the data. */
  method Clone<T>(src: Node<T>) returns (node: Node<T>)
    requires src.destroyed == 0
    ensures fresh(node) && node.data == src.copy(src.data) && node.copy == src.copy
    ensures node.prev == null && node.next == null && node.destroyed == 0
  {
    node := new Node(src.copy(src.data), src.copy);
  }

  /** The fields of one node at one moment. */
  datatype Cell<!T> = Cell(prev: Node?<T>, next: Node?<T>, data: T, destroyed: nat)

  ghost function CellOf<T>(n: Node<T>): Cell<T>
    reads n
  {
    Cell(n.prev, n.next, n.data, n.destroyed)
  }

  ghost function Cells<T>(nodes: seq<Node<T>>): (cells: seq<Cell<T>>)
    reads nodes
    ensures |cells| == |nodes|
    ensures forall i :: 0 <= i < |nodes| ==> cells[i] == CellOf(nodes[i])
  {
    seq(|nodes|, i requires 0 <= i < |nodes| reads nodes => CellOf(nodes[i]))
  }

  /** Does node number `i` know its neighbours, and is it not destroyed? */
  ghost predicate LinkedAt<T>(nodes: seq<Node<T>>, cells: seq<Cell<T>>, i: nat)
    requires i < |nodes| == |cells|
  {
    && cells[i].prev == (if i == 0 then null else nodes[i - 1])
    && cells[i].next == (if i == |nodes| - 1 then null else nodes[i + 1])
    && cells[i].destroyed == 0
  }

  ghost predicate Linked<T>(nodes: seq<Node<T>>, cells: seq<Cell<T>>) {
    && |cells| == |nodes| && ClosingGraph.Distinct(nodes)
    && (forall i {:trigger LinkedAt(nodes, cells, i)} :: 0 <= i < |nodes| ==> LinkedAt(nodes, cells, i))
  }

  function Data<T>(cells: seq<Cell<T>>): (s: seq<T>)
    ensures |s| == |cells|
  {
    seq(|cells|, i requires 0 <= i < |cells| => cells[i].data)
  }

  lemma EmptyLinked<T>(cells: seq<Cell<T>>)
    ensures cells == [] ==> Linked([], cells)
  {
  }

  function PushedFront<T>(nodes: seq<Node<T>>, cells: seq<Cell<T>>, node: Node<T>, data: T): seq<Cell<T>>
    requires |nodes| == |cells|
  {
    if nodes == [] then [Cell(null, null, data, 0)]
    else [Cell(null, nodes[0], data, 0), cells[0].(prev := node)] + cells[1..]
  }

  lemma PushFrontLinks<T>(nodes: seq<Node<T>>, cells: seq<Cell<T>>, node: Node<T>, data: T)
    requires Linked(nodes, cells) && node !in nodes
    ensures ClosingGraph.Distinct(nodes) && Linked([node] + nodes, PushedFront(nodes, cells, node, data))
    ensures Data(PushedFront(nodes, cells, node, data)) == [data] + Data(cells)
  {
    var all, pushed := [node] + nodes, PushedFront(nodes, cells, node, data);
    forall i | 0 <= i < |all| ensures LinkedAt(all, pushed, i) {
      if i > 0 {
        assert LinkedAt(nodes, cells, i - 1);
      }
    }
  }

  /** Where an iterator stands after `i` rounds. */
  ghost function NodeAt<T>(nodes: seq<Node<T>>, i: nat): Node?<T> {
    if i < |nodes| then nodes[i] else null
  }

  /** All values but those that meet `p`. */
  function Filter<T>(s: seq<T>, p: T -> bool): seq<T> {
    if s == [] then []
    else if p(s[|s| - 1]) then Filter(s[..|s| - 1], p)
    else Filter(s[..|s| - 1], p) + [s[|s| - 1]]
  }

  /** The nodes whose values do not meet `p`. */
  function Kept<N, T>(nodes: seq<N>, values: seq<T>, p: T -> bool): seq<N>
    requires |nodes| == |values|
  {
    var n := |nodes| - 1;
    if n < 0 then []
    else if p(values[n]) then Kept(nodes[..n], values[..n], p)
    else Kept(nodes[..n], values[..n], p) + [nodes[n]]
  }

  /** They are exactly those nodes, each of them once and in order. */
  lemma {:induction false} KeptExactly<N, T>(nodes: seq<N>, values: seq<T>, p: T -> bool)
    requires |nodes| == |values| && ClosingGraph.Distinct(nodes)
    ensures forall i :: 0 <= i < |nodes| ==> (nodes[i] in Kept(nodes, values, p) <==> !p(values[i]))
    ensures forall e :: e in Kept(nodes, values, p) ==> e in nodes
    ensures ClosingGraph.LeftOf(Kept(nodes, values, p), nodes)
  {
    if nodes != [] {
      var n := |nodes| - 1;
      var before, e := nodes[..n], nodes[n];
      KeptExactly(before, values[..n], p);
      assert e !in before;
      var rest := Kept(before, values[..n], p);
      ClosingGraph.OnlyLast(before, e, if p(values[n]) then rest else rest + [e]);
      assert nodes == before + [e];
      if !p(values[n]) {
        KeptOnly(before, rest, e);
      }
    }
  }

  lemma {:induction false} KeptOnly<N>(s: seq<N>, r: seq<N>, e: N)
    requires e !in s
    ensures ClosingGraph.Only(s, r + [e]) == ClosingGraph.Only(s, r)
  {
    if s != [] {
      KeptOnly(s[..|s| - 1], r, e);
    }
  }

  // ----- What each operation does to the fields of the nodes -----

  function PushedBack<T>(nodes: seq<Node<T>>, cells: seq<Cell<T>>, node: Node<T>, data: T): seq<Cell<T>>
    requires |nodes| == |cells|
  {
    var n := |nodes|;
    if n == 0 then [Cell(null, null, data, 0)]
    else cells[..n - 1] + [cells[n - 1].(next := node), Cell(nodes[n - 1], null, data, 0)]
  }

  lemma PushBackLinks<T>(nodes: seq<Node<T>>, cells: seq<Cell<T>>, node: Node<T>, data: T)
    requires Linked(nodes, cells) && node !in nodes
    ensures ClosingGraph.Distinct(nodes) && Linked(nodes + [node], PushedBack(nodes, cells, node, data))
    ensures Data(PushedBack(nodes, cells, node, data)) == Data(cells) + [data]
  {
    var all, pushed := nodes + [node], PushedBack(nodes, cells, node, data);
    forall i | 0 <= i < |all| ensures LinkedAt(all, pushed, i) {
      if i < |nodes| {
        assert LinkedAt(nodes, cells, i);
      }
    }
  }

  /** Node number `k` is unlinked from its neighbours. */
  function Detached<T>(nodes: seq<Node<T>>, cells: seq<Cell<T>>, k: nat): seq<Cell<T>>
    requires |nodes| == |cells| && k < |nodes|
  {
    var n := |nodes|;
    if n == 1 then []
    else if k == 0 then [cells[1].(prev := null)] + cells[2..]
    else if k == n - 1 then cells[..n - 2] + [cells[n - 2].(next := null)]
    else cells[..k - 1] + [cells[k - 1].(next := nodes[k + 1]), cells[k + 1].(prev := nodes[k - 1])] + cells[k + 2..]
  }

  function Without<T>(s: seq<T>, k: nat): seq<T>
    requires k < |s|
  {
    s[..k] + s[k + 1..]
  }

  lemma WithoutEnds<T>(s: seq<T>)
    requires s != []
    ensures s == [s[0]] + Without(s, 0) && s == Without(s, |s| - 1) + [s[|s| - 1]]
  {
  }

  lemma DataAt<T>(cells: seq<Cell<T>>, k: nat)
    requires k < |cells|
    ensures Data(cells)[k] == cells[k].data
  {
  }

  lemma WithoutShape<T>(s: seq<T>, k: nat)
    requires k < |s|
    ensures var r := Without(s, k);
            && |r| == |s| - 1
            && (|s| > 1 ==> r[0] == s[if k == 0 then 1 else 0] && r[|r| - 1] == s[if k == |s| - 1 then k - 1 else |s| - 1])
  {
  }

  lemma DetachLinks<T>(nodes: seq<Node<T>>, cells: seq<Cell<T>>, k: nat)
    requires Linked(nodes, cells) && k < |nodes|
    ensures ClosingGraph.Distinct(nodes) && nodes[k] !in Without(nodes, k)
    ensures Linked(Without(nodes, k), Detached(nodes, cells, k))
    ensures Data(Detached(nodes, cells, k)) == Without(Data(cells), k)
    ensures cells[k].destroyed == 0
    ensures cells[k].prev == (if k == 0 then null else nodes[k - 1])
    ensures cells[k].next == (if k == |nodes| - 1 then null else nodes[k + 1])
  {
    var d := Detached(nodes, cells, k);
    var m := Without(nodes, k);
    assert LinkedAt(nodes, cells, k);
    forall i | 0 <= i < |m| ensures LinkedAt(m, d, i) && d[i].data == cells[if i < k then i else i + 1].data {
      assert LinkedAt(nodes, cells, if i < k then i else i + 1);
    }
    assert forall i :: 0 <= i < |m| ==> m[i] == nodes[if i < k then i else i + 1];
  }

  /** The fields of the nodes left after node number `k` was unlinked, if only its
      neighbours were written to. */
  lemma CellsAfter<T>(before: seq<Node<T>>, k: nat, cells: seq<Cell<T>>, nodes: seq<Node<T>>, left: seq<Cell<T>>)
    requires |cells| == |before| && k < |before| && ClosingGraph.Distinct(before) && nodes == Without(before, k) && left == Detached(before, cells, k)
    requires forall n :: n in before && (k == 0 || n != before[k - 1]) && (k == |before| - 1 || n != before[k + 1]) && n != before[k] ==>
                  forall i :: 0 <= i < |before| && before[i] == n ==> CellOf(n) == cells[i]
    requires k > 0 ==> CellOf(before[k - 1]) == cells[k - 1].(next := if k == |before| - 1 then null else before[k + 1])
    requires k < |before| - 1 ==> CellOf(before[k + 1]) == cells[k + 1].(prev := if k == 0 then null else before[k - 1])
    ensures Cells(nodes) == left
  {
    forall i | 0 <= i < |nodes| ensures CellOf(nodes[i]) == left[i] {
      var j := if i < k then i else i + 1;
      assert nodes[i] == before[j];
    }
  }

  function Joined<T>(nodes: seq<Node<T>>, cells: seq<Cell<T>>, tail: seq<Node<T>>, tailCells: seq<Cell<T>>): seq<Cell<T>>
    requires |nodes| == |cells| > 0 && |tail| == |tailCells| > 0
  {
    cells[|cells| - 1 := cells[|cells| - 1].(next := tail[0])] + tailCells[0 := tailCells[0].(prev := nodes[|nodes| - 1])]
  }

  lemma JoinLinks<T>(nodes: seq<Node<T>>, cells: seq<Cell<T>>, tail: seq<Node<T>>, tailCells: seq<Cell<T>>)
    requires Linked(nodes, cells) && Linked(tail, tailCells) && nodes != [] && tail != []
    requires forall n :: n in nodes ==> n !in tail
    ensures Linked(nodes + tail, Joined(nodes, cells, tail, tailCells)) && ClosingGraph.Distinct(nodes) && ClosingGraph.Distinct(tail)
    ensures Data(Joined(nodes, cells, tail, tailCells)) == Data(cells) + Data(tailCells)
  {
    var all, joined := nodes + tail, Joined(nodes, cells, tail, tailCells);
    forall i, j | 0 <= i < j < |all| ensures all[i] != all[j] {
      assert i < |nodes| <= j ==> all[i] in nodes && all[j] in tail;
    }
    forall i | 0 <= i < |all| ensures LinkedAt(all, joined, i) {
      if i < |nodes| {
        assert LinkedAt(nodes, cells, i);
      } else {
        assert LinkedAt(tail, tailCells, i - |nodes|);
      }
    }
  }

  class TypedList<T(==)> {
    var size: nat
    var front: Node?<T>
    var back: Node?<T>
    ghost var nodes: seq<Node<T>>

    ghost predicate Valid()
      reads this, nodes
    {
      && size == |nodes|
      && Linked(nodes, Cells(nodes))
      && (if nodes == [] then front == null && back == null else front == nodes[0] && back == nodes[|nodes| - 1])
    }

    ghost function Values(): (s: seq<T>)
      reads this, nodes
    {
      Data(Cells(nodes))
    }

    constructor ()
      ensures Valid() && nodes == []
    {
      size, front, back, nodes := 0, null, null, [];
    }

    /** `check_integrity` accepts every proper list, and of the others those whose ends
        are proper ends; up to one node that is all there is to check. */
    method CheckIntegrity() returns (ok: bool)
      ensures Valid() ==> ok
      ensures size == 0 ==> (ok <==> front == null && back == null)
      ensures size == 1 ==> (ok <==> front != null && back == front && front.prev == null && front.next == null)
      ensures size > 1 ==> (ok <==> front != null && back != null && front.prev == null && back.next == null)
    {
      assert Valid() && size > 0 ==> LinkedAt(nodes, Cells(nodes), 0) && LinkedAt(nodes, Cells(nodes), size - 1);
      if size == 0 {
        if front != null || back != null {
          return false;
        }
      } else {
        if front == null || back == null {
          return false;
        }
        if size == 1 {
          if front != back {
            return false;
          }
          if front.prev != null || front.next != null {
            return false;
          }
        }
        if front.prev != null {
          return false;
        }
        if back.next != null {
          return false;
        }
      }
      return true;
    }

    method PushFront(node: Node<T>)
      requires Valid() && node !in nodes && node.destroyed == 0
      modifies this, node`prev, node`next, nodes
      ensures Valid() && nodes == [node] + old(nodes) && Values() == [node.data] + old(Values())
    {
      hide Linked, Data, Cells;
      ghost var cells := Cells(nodes);
      ghost var pushed := PushedFront(nodes, cells, node, node.data);
      PushFrontLinks(nodes, cells, node, node.data);
      if size == 0 {
        back, front := node, node;
        node.prev, node.next := null, null;
      } else {
        node.next := front;
        node.prev := null;
        front.prev := node;
        front := node;
      }
      size := size + 1;
      nodes := [node] + nodes;
      assert nodes[0] == node && (|nodes| > 1 ==> nodes[1] == old(nodes)[0]);
      assert forall i :: 2 <= i < |nodes| ==> nodes[i] == old(nodes)[i - 1] && nodes[i] != nodes[1] && pushed[i] == cells[i - 1];
      assert Cells(nodes) == pushed;
    }

    method PushListNodeBack(node: Node<T>)
      requires Valid() && node !in nodes && node.destroyed == 0
      modifies this, node`prev, node`next, nodes
      ensures Valid() && nodes == old(nodes) + [node] && Values() == old(Values()) + [node.data]
    {
      hide Linked, Data, Cells;
      ghost var cells := Cells(nodes);
      ghost var pushed := PushedBack(nodes, cells, node, node.data);
      PushBackLinks(nodes, cells, node, node.data);
      ghost var n := |nodes|;
      if size == 0 {
        front, back := node, node;
        node.next, node.prev := null, null;
      } else {
        node.next := null;
        node.prev := back;
        back.next := node;
        back := node;
      }
      size := size + 1;
      nodes := nodes + [node];
      assert nodes[n] == node && (n > 0 ==> nodes[n - 1] == old(nodes)[n - 1]);
      assert forall i :: 0 <= i < n - 1 ==> nodes[i] == old(nodes)[i] && nodes[i] != nodes[n - 1] && pushed[i] == cells[i];
      assert Cells(nodes) == pushed;
    }

    method PushBack(item: T, copy: T -> T)
      requires Valid()
      modifies this, nodes
      ensures Valid() && Values() == old(Values()) + [item]
      ensures |nodes| == |old(nodes)| + 1 && nodes[..|nodes| - 1] == old(nodes) && fresh(nodes[|nodes| - 1])
      ensures nodes[|nodes| - 1].copy == copy
    {
      var node := new Node(item, copy);
      PushListNodeBack(node);
    }

    method PopFront() returns (node: Node?<T>)
      requires Valid()
      modifies this, nodes
      ensures Valid()
      ensures old(nodes) == [] ==> node == null && nodes == []
      ensures old(nodes) != [] ==>
                && node != null && old(nodes) == [node] + nodes && old(Values()) == [node.data] + Values()
                && node.prev == null && node.next == null && node.data == old(node.data) && node.destroyed == 0
    {
      if size == 0 {
        return null;
      }
      hide Linked, Data, Cells, Without;
      WithoutEnds(nodes);
      WithoutEnds(Values());
      DataAt(Cells(nodes), 0);
      node := TakeFront();
    }

    /** The rest of `PopFront`, for a list that is not empty. */
    method TakeFront() returns (node: Node<T>)
      requires Valid() && nodes != []
      modifies this, nodes
      ensures Valid() && nodes == Without(old(nodes), 0) && Values() == Without(old(Values()), 0)
      ensures node == old(nodes)[0] && node.prev == null && node.next == null
      ensures node.data == old(node.data) && node.destroyed == 0
    {
      hide Linked, Data, Cells, Without, Detached, ClosingGraph.Distinct;
      ghost var before, k := nodes, 0;
      ghost var cells := Cells(before);
      ghost var left := Detached(before, cells, k);
      DetachLinks(before, cells, k);
      assert front == before[k] && cells[k] == CellOf(front);
      node := front;
      if size == 1 {
        back, front := null, null;
        node.prev, node.next := null, null;
      } else {
        front := front.next;
        front.prev := null;
        node.next := null;
      }
      size := size - 1;
      nodes := Without(before, k);
      WithoutShape(before, k);
      CellsAfter(before, k, cells, nodes, left);
    }

    method PopBack() returns (node: Node?<T>)
      requires Valid()
      modifies this, nodes
      ensures Valid()
      ensures old(nodes) == [] ==> node == null && nodes == []
      ensures old(nodes) != [] ==>
                && node != null && old(nodes) == nodes + [node] && old(Values()) == Values() + [node.data]
                && node.prev == null && node.next == null && node.data == old(node.data) && node.destroyed == 0
    {
      if size == 0 {
        return null;
      }
      hide Linked, Data, Cells, Without;
      WithoutEnds(nodes);
      WithoutEnds(Values());
      DataAt(Cells(nodes), |nodes| - 1);
      node := TakeBack();
    }

    /** The rest of `PopBack`, for a list that is not empty. */
    method TakeBack() returns (node: Node<T>)
      requires Valid() && nodes != []
      modifies this, nodes
      ensures Valid() && nodes == Without(old(nodes), old(|nodes| - 1)) && Values() == Without(old(Values()), old(|nodes| - 1))
      ensures node == old(nodes[|nodes| - 1]) && node.prev == null && node.next == null
      ensures node.data == old(node.data) && node.destroyed == 0
    {
      hide Linked, Data, Cells, Without, Detached, ClosingGraph.Distinct;
      ghost var before, k := nodes, |nodes| - 1;
      ghost var cells := Cells(before);
      ghost var left := Detached(before, cells, k);
      DetachLinks(before, cells, k);
      assert back == before[k] && cells[k] == CellOf(back);
      node := back;
      if size == 1 {
        front, back := null, null;
        node.prev, node.next := null, null;
      } else {
        back := back.prev;
        back.next := null;
        node.prev := null;
      }
      size := size - 1;
      nodes := Without(before, k);
      WithoutShape(before, k);
      CellsAfter(before, k, cells, nodes, left);
    }

    method Swap(target: TypedList<T>)
      requires Valid() && target.Valid()
      modifies this, target
      ensures Valid() && target.Valid() && nodes == old(target.nodes) && target.nodes == old(nodes)
      ensures Values() == old(target.Values()) && target.Values() == old(Values())
    {
      hide Linked, Data, Cells;
      var selfFront, selfBack, selfSize := front, back, size;
      ghost var selfNodes := nodes;
      front, back, size, nodes := target.front, target.back, target.size, target.nodes;
      target.front, target.back, target.size, target.nodes := selfFront, selfBack, selfSize, selfNodes;
    }

    /** Takes all the nodes of `target`, a different list, and leaves it empty. */
    method Concat(target: TypedList<T>)
      requires Valid() && target.Valid() && this != target
      requires forall n :: n in nodes ==> n !in target.nodes
      modifies this, target, nodes, target.nodes
      ensures Valid() && target.Valid() && nodes == old(nodes) + old(target.nodes) && target.nodes == []
      ensures Values() == old(Values()) + old(target.Values())
    {
      hide Linked, Data, Cells;
      if target.size == 0 {
        return;
      }
      if size == 0 {
        Swap(target);
        return;
      }
      Join(target);
    }

    /** The rest of `Concat`, for two lists that are not empty. */
    method Join(target: TypedList<T>)
      requires Valid() && target.Valid() && this != target && nodes != [] && target.nodes != []
      requires forall n :: n in nodes ==> n !in target.nodes
      modifies this, target, nodes, target.nodes
      ensures Valid() && target.Valid() && nodes == old(nodes) + old(target.nodes) && target.nodes == []
      ensures Values() == old(Values()) + old(target.Values())
    {
      hide Linked, Data, Cells, ClosingGraph.Distinct;
      ghost var n, cells, tailCells := |nodes|, Cells(nodes), Cells(target.nodes);
      ghost var joined := Joined(nodes, cells, target.nodes, tailCells);
      JoinLinks(nodes, cells, target.nodes, tailCells);
      back.next := target.front;
      target.front.prev := back;
      back := target.back;
      size := size + target.size;
      nodes := nodes + target.nodes;
      target.Forget();
      forall i | 0 <= i < |nodes| ensures CellOf(nodes[i]) == joined[i] {
        if i < n {
          assert nodes[i] == old(nodes)[i] && nodes[i] in old(nodes) && old(target.nodes)[0] in old(target.nodes);
        } else {
          assert nodes[i] == old(target.nodes)[i - n] && nodes[i] in old(target.nodes) && old(nodes)[n - 1] in old(nodes);
        }
      }
      assert Cells(nodes) == joined;
    }

    /** The list lets go of its nodes, which another one has taken over. */
    method Forget()
      modifies this
      ensures Valid() && nodes == [] && Values() == []
    {
      front := null;
      back := null;
      size := 0;
      nodes := [];
      EmptyLinked<T>(Cells(nodes));
    }

    /** `list_detach_node`: the detached node keeps its own links. */
    method DetachNode(node: Node<T>, ghost k: nat)
      requires Valid() && k < |nodes| && node == nodes[k]
      modifies this, nodes
      ensures Valid() && nodes == Without(old(nodes), k) && Values() == Without(old(Values()), k)
      ensures CellOf(node) == old(CellOf(node)) && node !in nodes && node.destroyed == 0
    {
      hide Linked, Data, Cells, Without, Detached, ClosingGraph.Distinct;
      ghost var cells := Cells(nodes);
      ghost var left := Detached(nodes, cells, k);
      DetachLinks(nodes, cells, k);
      if size == 1 {
        front := null;
        back := null;
      } else {
        if node == front {
          front.next.prev := null;
          front := front.next;
        } else if node == back {
          back.prev.next := null;
          back := back.prev;
        } else {
          node.prev.next := node.next;
          node.next.prev := node.prev;
        }
      }
      size := size - 1;
      nodes := Without(nodes, k);
      WithoutShape(old(nodes), k);
      CellsAfter(old(nodes), k, cells, nodes, left);
    }

    /** `list_remove_node`. */
    method RemoveNode(node: Node<T>, ghost k: nat)
      requires Valid() && k < |nodes| && node == nodes[k]
      modifies this, nodes
      ensures Valid() && nodes == Without(old(nodes), k) && Values() == Without(old(Values()), k)
      ensures nodes[k..] == old(nodes)[k..][1..]
      ensures forall n :: n in old(nodes) ==> (n in nodes <==> n != node) && n.destroyed == if n == node then 1 else 0
      ensures forall n :: n in nodes ==> n in old(nodes)
    {
      hide Linked, Data, Cells, Without;
      AllLive(this);
      WithoutMembers(nodes, k);
      DetachNode(node, k);
      AllLive(this);
      node.Destroy();
    }

    // ----- Loops of the form `foreach`: the next node is read before the body runs -----

    /** The start of a `foreach`. */
    method Begin() returns (node: Node?<T>, next: Node?<T>)
      requires Valid()
      ensures node == NodeAt(nodes, 0) && next == NodeAt(nodes, 1)
    {
      node := front;
      next := null;
      if front != null {
        assert LinkedAt(nodes, Cells(nodes), 0);
        next := front.next;
      }
    }

    /** The step of a `foreach` to the node read before, which is number `k` now. */
    method Advance(cached: Node?<T>, ghost k: nat) returns (node: Node?<T>, next: Node?<T>)
      requires Valid() && cached == NodeAt(nodes, k)
      ensures node == cached && next == NodeAt(nodes, k + 1)
    {
      node := cached;
      next := null;
      if node != null {
        LiveAt(this, k);
        assert node.destroyed == 0;
        next := node.next;
      }
    }

    /** Pushes a clone of `src`, node number `i` of the other list `target`. */
    method PushClone(src: Node<T>, ghost target: TypedList<T>, ghost i: nat) returns (clone: Node<T>)
      requires Valid() && target.Valid() && this != target && i < |target.nodes| && src == target.nodes[i]
      requires forall n :: n in nodes ==> n !in target.nodes
      modifies this, nodes
      ensures Valid() && Values() == old(Values()) + [src.copy(target.Values()[i])]
      ensures nodes == old(nodes) + [clone] && fresh(clone) && clone.copy == src.copy
      ensures forall n :: n in nodes ==> n !in target.nodes
      ensures unchanged(target) && target.Valid() && target.Values() == old(target.Values())
    {
      hide Linked, Data, Cells;
      ghost var others, cells := target.nodes, Cells(target.nodes);
      LiveAt(target, i);
      assert forall i :: 0 <= i < |others| ==> others[i] in others && others[i] !in nodes;
      clone := Clone(src);
      PushListNodeBack(clone);
      assert forall i :: 0 <= i < |others| ==> CellOf(others[i]) == old(CellOf(others[i]));
      assert Cells(target.nodes) == cells;
    }

    /** Appends a clone of every node of `target`, a different list. */
    method Copy(target: TypedList<T>)
      requires Valid() && target.Valid() && this != target
      requires forall n :: n in nodes ==> n !in target.nodes
      modifies this, nodes
      ensures Valid() && target.Valid() && target.nodes == old(target.nodes) && target.Values() == old(target.Values())
      ensures Values() == old(Values()) + Clones(old(target.nodes), old(target.Values()))
      ensures |nodes| == |old(nodes)| + |target.nodes|
      ensures nodes[..|old(nodes)|] == old(nodes) && fresh(nodes[|old(nodes)|..])
      ensures SameCopies(nodes[|old(nodes)|..], target.nodes)
    {
      hide Linked, Data, Cells, Clones, ClosingGraph.Distinct, CellOf, Valid, SameCopies;
      NoCopies(target.nodes);
      ghost var values, clones := Values(), Clones(target.nodes, target.Values());
      ghost var i, added := 0, [];
      var node, next := target.Begin();
      while node != null
        invariant 0 <= i <= |target.nodes| && node == NodeAt(target.nodes, i) && next == NodeAt(target.nodes, i + 1)
        invariant unchanged(target) && target.Valid() && target.Values() == old(target.Values())
        invariant Valid() && nodes == old(nodes) + added && |added| == i && fresh(added)
        invariant forall n :: n in nodes ==> n !in target.nodes
        invariant SameCopies(added, target.nodes[..i])
        invariant Values() == values + clones[..i]
        decreases |target.nodes| - i
      {
        var clone := PushClone(node, target, i);
        assert old(nodes) + added + [clone] == old(nodes) + (added + [clone]);
        SameCopiesStep(added, target.nodes, i, clone);
        added := added + [clone];
        ClonesStep(values, clones, i);
        i := i + 1;
        node, next := target.Advance(next, i);
      }
      assert nodes[|old(nodes)|..] == added && target.nodes[..i] == target.nodes;
    }

    /** Finds the first node whose data `compare` accepts. */
    method Find(item: T, compare: (T, T) -> bool) returns (found: Node?<T>)
      requires Valid()
      ensures found == null ==> forall i :: 0 <= i < |nodes| ==> !compare(nodes[i].data, item)
      ensures found != null ==>
                exists i :: 0 <= i < |nodes| && found == nodes[i] && compare(nodes[i].data, item)
                            && forall j :: 0 <= j < i ==> !compare(nodes[j].data, item)
    {
      hide Linked, Data, Cells;
      ghost var i := 0;
      var node, next := Begin();
      while node != null
        invariant 0 <= i <= |nodes| && node == NodeAt(nodes, i) && next == NodeAt(nodes, i + 1)
        invariant forall j :: 0 <= j < i ==> !compare(nodes[j].data, item)
        decreases |nodes| - i
      {
        if compare(node.data, item) {
          return node;
        }
        i := i + 1;
        node, next := Advance(next, i);
      }
      return null;
    }

    /** One round of the loop of `Clear`. */
    static method ClearOne(current: Node<T>, cached: Node?<T>, ghost all: seq<Node<T>>, ghost cells: seq<Cell<T>>, ghost i: nat)
      returns (node: Node?<T>, next: Node?<T>)
      requires Linked(all, cells) && Clearing(all, cells, i) && i < |all| && current == all[i] && cached == NodeAt(all, i + 1)
      modifies current`destroyed
      ensures Clearing(all, cells, i + 1) && node == NodeAt(all, i + 1) && next == NodeAt(all, i + 2)
    {
      NextCell(all, cells, i);
      if i + 1 < |all| {
        NextCell(all, cells, i + 1);
      }
      hide Linked;
      current.Destroy();
      node := cached;
      next := null;
      if node != null {
        assert node.destroyed == 0;
        next := node.next;
      }
    }

    /** Destroys every node once; no destroyed node is read. */
    method Clear()
      requires Valid()
      modifies this, nodes
      ensures Valid() && nodes == []
      ensures forall n :: n in old(nodes) ==> n.destroyed == 1
    {
      ghost var i, all, cells := 0, nodes, Cells(nodes);
      AllLive(this);
      var node, next := Begin();
      assert Linked(all, cells) && Clearing(all, cells, 0);
      hide Linked, Data, Cells, Clearing;
      while node != null
        invariant 0 <= i <= |all| && nodes == all && Linked(all, cells) && Clearing(all, cells, i)
        invariant node == NodeAt(all, i) && next == NodeAt(all, i + 1)
        decreases |all| - i
      {
        node, next := ClearOne(node, next, all, cells, i);
        i := i + 1;
      }
      AllCleared(all, cells, i);
      size := 0;
      front := null;
      back := null;
      nodes := [];
    }

    /** The body of the loop of `RemoveIf`. */
    method RemoveOrKeep(node: Node<T>, p: T -> bool, ghost k: nat, ghost i: nat, ghost all: seq<Node<T>>, ghost values: seq<T>)
      returns (ghost j: nat)
      requires i < |all| && node == all[i] && Sweeping(all, values, k, i, p)
      modifies this, nodes
      ensures Sweeping(all, values, j, i + 1, p) && Valid() && forall n :: n in nodes ==> n in old(nodes)
      ensures NodeAt(nodes, j) == NodeAt(all, i + 1) && NodeAt(nodes, j + 1) == NodeAt(all, i + 2)
    {
      hide Linked, Data, Cells, Without, Filter, Removing, Filtering, Keeping, ClosingGraph.Distinct;
      RemovingNext(all, nodes, k, i);
      KeepingNext(all, nodes, values, k, i, p);
      LiveAt(this, k);
      AllLive(this);
      SameLength(values, Values(), all, nodes, k, i, p);
      FilteringNext(values, Values(), k, i, p);
      if p(node.data) {
        RemoveNode(node, k);
        j := k;
      } else {
        j := k + 1;
      }
      RemovingAt(all, nodes, j, i + 1);
    }

    /** The loop has visited the first `i` of the original nodes `all`, which held
        `values`; it stands at number `k` of those that are left. */
    ghost predicate Sweeping(all: seq<Node<T>>, values: seq<T>, k: nat, i: nat, p: T -> bool)
      reads this, nodes, all
    {
      && Valid() && Removing(all, nodes, k, i) && Filtering(values, Values(), k, i, p)
      && Keeping(all, nodes, values, k, i, p) && DestroyedBut(all, nodes)
    }

    lemma SweepStarts(p: T -> bool)
      requires Valid()
      ensures Sweeping(nodes, Values(), 0, 0, p)
    {
      AllLive(this);
      RemovingStart(nodes, Values(), p);
      assert Keeping(nodes, nodes, Values(), 0, 0, p);
    }

    lemma SweepEnds(all: seq<Node<T>>, values: seq<T>, k: nat, i: nat, p: T -> bool)
      requires Sweeping(all, values, k, i, p) && i >= |all|
      ensures Valid() && Values() == Filter(values, p) && DestroyedBut(all, nodes)
      ensures |all| == |values| && nodes == Kept(all, values, p)
    {
      RemovingEnd(values, Values(), k, i, p);
      KeepingEnd(all, nodes, values, k, i, p);
    }

    /** One round of the loop below. */
    method SweepOne(node: Node<T>, cached: Node?<T>, p: T -> bool, ghost k: nat, ghost i: nat, ghost all: seq<Node<T>>, ghost values: seq<T>)
      returns (ghost j: nat, node': Node?<T>, next': Node?<T>)
      requires i < |all| && node == all[i] && cached == NodeAt(all, i + 1) && Sweeping(all, values, k, i, p)
      modifies this, all
      ensures Sweeping(all, values, j, i + 1, p)
      ensures node' == NodeAt(all, i + 1) && next' == NodeAt(all, i + 2)
    {
      assert forall n :: n in nodes ==> n in all;
      hide Valid, Sweeping, Linked, Data, Cells, Filter, DestroyedBut;
      j := RemoveOrKeep(node, p, k, i, all, values);
      node', next' := Advance(cached, j);
    }

    /** The loop of `RemoveIf`, over all the nodes of the list. */
    method SweepAll(p: T -> bool, ghost all: seq<Node<T>>, ghost values: seq<T>) returns (ghost k: nat)
      requires Valid() && nodes == all && Sweeping(all, values, 0, 0, p)
      modifies this, all
      ensures Sweeping(all, values, k, |all|, p)
    {
      hide Valid, Sweeping, DestroyedBut, Data, Cells, Filter, Kept;
      ghost var i := 0;
      k := 0;
      var node, next := Begin();
      while node != null
        invariant node == NodeAt(all, i) && next == NodeAt(all, i + 1) && i <= |all|
        invariant Sweeping(all, values, k, i, p)
        decreases |all| - i
      {
        k, node, next := SweepOne(node, next, p, k, i, all, values);
        i := i + 1;
      }
    }

    /** Detaches and destroys, within the loop, every node whose data meets `p`. */
    method RemoveIf(p: T -> bool)
      requires Valid()
      modifies this, nodes
      ensures Valid() && Values() == Filter(old(Values()), p)
      ensures nodes == Kept(old(nodes), old(Values()), p) && DestroyedBut(old(nodes), nodes)
    {
      ghost var values, all := Values(), nodes;
      SweepStarts(p);
      hide *;
      ghost var k := SweepAll(p, all, values);
      SweepEnds(all, values, k, |all|, p);
    }

    /** `list_remove_ptr`: removes the first node that holds `ptr`. */
    method RemovePtr(ptr: T) returns (found: bool)
      requires Valid()
      modifies this, nodes
      ensures Valid() && found == (ptr in old(Values()))
      ensures Values() == ClosingGraph.RemovePtr(old(Values()), ptr)
      ensures !found ==> nodes == old(nodes)
      ensures found ==> exists i :: 0 <= i < |old(nodes)| && nodes == Without(old(nodes), i) && ptr !in old(Values())[..i]
      ensures DestroyedBut(old(nodes), nodes)
    {
      hide Linked, Data, Cells, Without;
      AllLive(this);
      ghost var i := 0;
      var node, next := Begin();
      while node != null
        invariant 0 <= i <= |nodes| && node == NodeAt(nodes, i) && next == NodeAt(nodes, i + 1)
        invariant Valid() && nodes == old(nodes) && Values() == old(Values()) && ptr !in Values()[..i]
        invariant DestroyedBut(nodes, nodes)
        decreases |nodes| - i
      {
        LiveAt(this, i);
        assert Values()[..i + 1] == Values()[..i] + [Values()[i]];
        if node.data == ptr {
          RemovePtrAt(Values(), ptr, i);
          RemoveNode(node, i);
          return true;
        }
        i := i + 1;
        node, next := Advance(next, i);
      }
      RemovePtrAbsent(Values(), ptr);
      return false;
    }
  }

  /** A node of a proper list may be read, and knows the next one. */
  lemma LiveAt<T>(list: TypedList<T>, i: nat)
    requires list.Valid() && i < |list.nodes|
    ensures list.nodes[i].destroyed == 0 && list.nodes[i].next == NodeAt(list.nodes, i + 1)
    ensures i < |list.Values()| && list.Values()[i] == list.nodes[i].data
  {
    assert LinkedAt(list.nodes, Cells(list.nodes), i);
  }

  /** The loop of `Clear` has destroyed the first `i` nodes, and changed nothing else. */
  ghost predicate Clearing<T>(all: seq<Node<T>>, cells: seq<Cell<T>>, i: nat)
    reads all
  {
    && |cells| == |all|
    && forall j :: 0 <= j < |all| ==> all[j].destroyed == (if j < i then 1 else 0) && all[j].next == cells[j].next
  }

  lemma AllCleared<T>(all: seq<Node<T>>, cells: seq<Cell<T>>, i: nat)
    requires Clearing(all, cells, i) && i == |all|
    ensures forall n :: n in all ==> n.destroyed == 1
  {
  }

  lemma NextCell<T>(nodes: seq<Node<T>>, cells: seq<Cell<T>>, i: nat)
    requires Linked(nodes, cells) && i < |nodes|
    ensures cells[i].next == NodeAt(nodes, i + 1) && forall j :: 0 <= j < |nodes| && j != i ==> nodes[j] != nodes[i]
  {
    assert LinkedAt(nodes, cells, i);
  }

  lemma AllLive<T>(list: TypedList<T>)
    requires list.Valid()
    ensures ClosingGraph.Distinct(list.nodes) && |list.Values()| == |list.nodes|
    ensures forall i :: 0 <= i < |list.nodes| ==> list.nodes[i].destroyed == 0
  {
    forall i | 0 <= i < |list.nodes| ensures list.nodes[i].destroyed == 0 {
      LiveAt(list, i);
    }
  }

  lemma WithoutMembers<T>(s: seq<T>, k: nat)
    requires ClosingGraph.Distinct(s) && k < |s|
    ensures Without(s, k)[k..] == s[k..][1..] && |Without(s, k)| == |s| - 1
    ensures forall e :: e in s ==> (e in Without(s, k) <==> e != s[k])
    ensures forall e :: e in Without(s, k) ==> e in s
  {
    forall e | e in s && e != s[k] ensures e in Without(s, k) {
      var i :| 0 <= i < |s| && s[i] == e;
      assert e == Without(s, k)[if i < k then i else i - 1];
    }
  }

  /** A loop has dealt with the first `i` of the nodes `all`; `k` of them are left
      and the others are still ahead. */
  ghost predicate Removing<T>(all: seq<T>, nodes: seq<T>, k: nat, i: nat) {
    k <= i <= |all| && |nodes| == k + |all| - i && nodes[k..] == all[i..]
  }

  ghost predicate Filtering<T>(all: seq<T>, values: seq<T>, k: nat, i: nat, p: T -> bool) {
    Removing(all, values, k, i) && values[..k] == Filter(all[..i], p)
  }

  ghost predicate Keeping<N, T>(all: seq<N>, nodes: seq<N>, values: seq<T>, k: nat, i: nat, p: T -> bool) {
    Removing(all, nodes, k, i) && |values| == |all| && nodes[..k] == Kept(all[..i], values[..i], p)
  }

  lemma KeepingNext<N, T>(all: seq<N>, nodes: seq<N>, values: seq<T>, k: nat, i: nat, p: T -> bool)
    requires Keeping(all, nodes, values, k, i, p) && i < |all|
    ensures k < |nodes| && i < |values|
    ensures if p(values[i]) then Keeping(all, Without(nodes, k), values, k, i + 1, p) else Keeping(all, nodes, values, k + 1, i + 1, p)
  {
    RemovingNext(all, nodes, k, i);
    assert all[..i + 1][..i] == all[..i] && values[..i + 1][..i] == values[..i];
    assert Without(nodes, k)[..k] == nodes[..k];
    assert nodes[..k + 1] == nodes[..k] + [nodes[k]];
  }

  lemma KeepingEnd<N, T>(all: seq<N>, nodes: seq<N>, values: seq<T>, k: nat, i: nat, p: T -> bool)
    requires Keeping(all, nodes, values, k, i, p) && i >= |all|
    ensures |values| == |all| && nodes == Kept(all, values, p)
  {
    assert all[..i] == all && values[..i] == values && nodes[..k] == nodes;
  }

  lemma RemovingStart<N, T>(all: seq<N>, values: seq<T>, p: T -> bool)
    ensures Removing(all, all, 0, 0) && Filtering(values, values, 0, 0, p)
  {
  }

  /** Exactly the nodes of `all` that left the list are destroyed, once each. */
  ghost predicate DestroyedBut<T>(all: seq<Node<T>>, nodes: seq<Node<T>>)
    reads all
  {
    && (forall n :: n in nodes ==> n in all)
    && (forall n :: n in all ==> n.destroyed == if n in nodes then 0 else 1)
  }

  lemma RemovingEnd<T>(all: seq<T>, values: seq<T>, k: nat, i: nat, p: T -> bool)
    requires Filtering(all, values, k, i, p) && i >= |all|
    ensures values == Filter(all, p)
  {
    assert all[..i] == all && values[..k] == values;
  }

  lemma RemovingNext<T>(all: seq<T>, nodes: seq<T>, k: nat, i: nat)
    requires Removing(all, nodes, k, i) && i < |all|
    ensures k < |nodes| && nodes[k] == all[i]
    ensures Removing(all, nodes, k + 1, i + 1) && Removing(all, Without(nodes, k), k, i + 1)
  {
    assert nodes[k] == nodes[k..][0] && all[i] == all[i..][0];
    assert nodes[k + 1..] == nodes[k..][1..] && all[i + 1..] == all[i..][1..];
    assert Without(nodes, k)[k..] == nodes[k + 1..];
  }

  lemma SameLength<N, T>(values: seq<T>, left: seq<T>, all: seq<N>, nodes: seq<N>, k: nat, i: nat, p: T -> bool)
    requires Filtering(values, left, k, i, p) && Removing(all, nodes, k, i) && |left| == |nodes|
    ensures |values| == |all|
  {
  }

  lemma RemovingAt<T>(all: seq<Node<T>>, nodes: seq<Node<T>>, k: nat, i: nat)
    requires Removing(all, nodes, k, i)
    ensures NodeAt(nodes, k) == NodeAt(all, i) && NodeAt(nodes, k + 1) == NodeAt(all, i + 1)
  {
    if i < |all| {
      RemovingNext(all, nodes, k, i);
      if i + 1 < |all| {
        RemovingNext(all, nodes, k + 1, i + 1);
      }
    }
  }

  lemma FilteringNext<T>(all: seq<T>, values: seq<T>, k: nat, i: nat, p: T -> bool)
    requires Filtering(all, values, k, i, p) && i < |all|
    ensures k < |values| && values[k] == all[i]
    ensures if p(all[i]) then Filtering(all, Without(values, k), k, i + 1, p) else Filtering(all, values, k + 1, i + 1, p)
  {
    RemovingNext(all, values, k, i);
    assert all[..i + 1][..i] == all[..i];
    assert Without(values, k)[..k] == values[..k];
    assert values[..k + 1] == values[..k] + [values[k]];
  }

  function Clones<T>(nodes: seq<Node<T>>, data: seq<T>): (s: seq<T>)
    requires |nodes| == |data|
    ensures |s| == |nodes|
    ensures forall i :: 0 <= i < |nodes| ==> s[i] == nodes[i].copy(data[i])
  {
    seq(|nodes|, i requires 0 <= i < |nodes| => nodes[i].copy(data[i]))
  }

  /** Nodes copy their data by the same functions. */
  ghost predicate SameCopies<T>(a: seq<Node<T>>, b: seq<Node<T>>) {
    |a| == |b| && forall i :: 0 <= i < |a| ==> a[i].copy == b[i].copy
  }

  lemma NoCopies<T>(b: seq<Node<T>>)
    ensures SameCopies([], b[..0])
  {
  }

  lemma SameCopiesStep<T>(a: seq<Node<T>>, b: seq<Node<T>>, i: nat, clone: Node<T>)
    requires i < |b| && SameCopies(a, b[..i]) && clone.copy == b[i].copy
    ensures SameCopies(a + [clone], b[..i + 1])
  {
  }

  lemma ClonesStep<T>(values: seq<T>, clones: seq<T>, i: nat)
    requires i < |clones|
    ensures values + clones[..i + 1] == values + clones[..i] + [clones[i]]
  {
  }

  lemma {:induction false} RemovePtrAt<T>(s: seq<T>, p: T, i: nat)
    requires i < |s| && s[i] == p && p !in s[..i]
    ensures ClosingGraph.RemovePtr(s, p) == Without(s, i)
  {
    if i > 0 {
      assert s[0] in s[..i];
      assert s[1..][..i - 1] == s[..i][1..];
      RemovePtrAt(s[1..], p, i - 1);
      assert Without(s, i) == [s[0]] + Without(s[1..], i - 1);
    }
  }

  lemma {:induction false} RemovePtrAbsent<T>(s: seq<T>, p: T)
    requires p !in s
    ensures ClosingGraph.RemovePtr(s, p) == s
  {
    if s != [] {
      RemovePtrAbsent(s[1..], p);
    }
  }

  /** The loops that drop a subscriber are this list operation. */
  lemma {:induction false} WithoutWhoIsFilter<R>(q: seq<ClosingGraph.Item<R>>, who: ClosingGraph.Who<R>)
    ensures ClosingGraph.WithoutWho(q, who) == Filter(q, (it: ClosingGraph.Item<R>) => it.who == who)
  {
    if q != [] {
      WithoutWhoIsFilter(q[..|q| - 1], who);
    }
  }
}
