/** The intrusive, doubly linked callback list behind `StopSource` and `StopToken`, with its real pointers. */
module StopLists {
  import opened Options
  import opened Lists

  // ---- Which callbacks a stop fires, as a function of the list -------------------------------

  /** The nodes fired by a stop, in order: nodes with a callback, unless an earlier callback destroyed them. */
  function FireOrder<T(==)>(list: seq<T>, destroys: map<T, seq<T>>): (r: seq<T>)
    ensures forall x :: x in r ==> x in list && x in destroys
    decreases |list|
  {
    if list == [] then []
    else if list[0] !in destroys then FireOrder(list[1..], destroys)
    else
      var rest := Minus(list[1..], destroys[list[0]]);
      MinusShorter(list[1..], destroys[list[0]]);
      [list[0]] + FireOrder(rest, destroys)
  }

  /** Each node linked when the stop starts fires at most once, and only nodes on the list fire. */
  lemma {:induction false} FiresAtMostOnce<T>(list: seq<T>, destroys: map<T, seq<T>>)
    requires Distinct(list)
    ensures Distinct(FireOrder(list, destroys))
    decreases |list|
  {
    if list != [] {
      assert list == [list[0]] + list[1..];
      if list[0] !in destroys {
        FiresAtMostOnce(list[1..], destroys);
      } else {
        var gone := destroys[list[0]];
        MinusShorter(list[1..], gone);
        MinusDistinct(list[1..], gone);
        FiresAtMostOnce(Minus(list[1..], gone), destroys);
      }
    }
  }

  /** The first node of the list fires if it has a callback; the others fire as on the list it leaves behind. */
  lemma FireOrderStep<T>(list: seq<T>, destroys: map<T, seq<T>>)
    requires list != []
    ensures FireOrder(list, destroys) ==
      if list[0] !in destroys then FireOrder(list[1..], destroys)
      else [list[0]] + FireOrder(Minus(list[1..], destroys[list[0]]), destroys)
  {
  }

  /** No callback fires after its node was destroyed: what a fired callback destroys does not fire later. */
  lemma {:induction false} DestroyedNeverFires<T>(list: seq<T>, destroys: map<T, seq<T>>, i: nat, j: nat)
    requires i < j < |FireOrder(list, destroys)|
    ensures FireOrder(list, destroys)[j] !in destroys[FireOrder(list, destroys)[i]]
    decreases |list|
  {
    FireOrderStep(list, destroys);
    if list[0] !in destroys {
      DestroyedNeverFires(list[1..], destroys, i, j);
    } else {
      var rest := Minus(list[1..], destroys[list[0]]);
      MinusShorter(list[1..], destroys[list[0]]);
      if i > 0 { DestroyedNeverFires(rest, destroys, i - 1, j - 1); }
    }
  }

  /** A linked node with a callback that does not fire was destroyed by a callback that did. */
  lemma {:induction false} UnfiredWasDestroyed<T>(list: seq<T>, destroys: map<T, seq<T>>, x: T)
    requires x in list && x in destroys && x !in FireOrder(list, destroys)
    ensures exists k :: k in FireOrder(list, destroys) && x in destroys[k]
    decreases |list|
  {
    var order := FireOrder(list, destroys);
    if list[0] !in destroys {
      UnfiredWasDestroyed(list[1..], destroys, x);
    } else if x in destroys[list[0]] {
      assert list[0] in order;
    } else {
      var rest := Minus(list[1..], destroys[list[0]]);
      MinusShorter(list[1..], destroys[list[0]]);
      assert x in rest;
      UnfiredWasDestroyed(rest, destroys, x);
      var k :| k in FireOrder(rest, destroys) && x in destroys[k];
      assert k in order;
    }
  }

  /** No callback that fires before `x` is reached destroys `x`. */
  predicate Spared<T(==)>(before: seq<T>, order: seq<T>, destroys: map<T, seq<T>>, x: T) {
    forall k :: k in before && k in order && k in destroys ==> x !in destroys[k]
  }

  lemma SparedByHead<T>(h: T, before: seq<T>, later: seq<T>, destroys: map<T, seq<T>>, x: T)
    requires h in destroys ==> x !in destroys[h]
    ensures Spared([h] + before, [h] + later, destroys, x) <==> Spared(before, later, destroys, x)
    ensures Spared([h] + before, later, destroys, x) <==> Spared(before, later, destroys, x)
  {
    if Spared([h] + before, [h] + later, destroys, x) {
      assert forall k :: k in before ==> k in [h] + before;
      assert forall k :: k in later ==> k in [h] + later;
    }
    if Spared([h] + before, later, destroys, x) {
      assert forall k :: k in before ==> k in [h] + before;
    }
  }

  lemma SparedAlike<T>(a: seq<T>, b: seq<T>, order: seq<T>, destroys: map<T, seq<T>>, x: T)
    requires forall k :: k in order ==> (k in a <==> k in b)
    ensures Spared(a, order, destroys, x) <==> Spared(b, order, destroys, x)
  {
  }

  /** Exactly who fires: a linked node with a callback, unless a callback that fires before it destroys it. */
  lemma {:induction false} FiresUnlessDestroyed<T>(list: seq<T>, destroys: map<T, seq<T>>, n: nat)
    requires Distinct(list) && n < |list| && list[n] in destroys
    ensures list[n] in FireOrder(list, destroys) <==> Spared(list[..n], FireOrder(list, destroys), destroys, list[n])
    decreases |list|
  {
    FireOrderStep(list, destroys);
    if n > 0 {
      var h, x, tail := list[0], list[n], list[1..];
      var before := tail[..n - 1];
      assert list[..n] == [h] + before && h != x;
      if h !in destroys {
        FiresUnlessDestroyed(tail, destroys, n - 1);
        hide *;
        SparedByHead(h, before, FireOrder(tail, destroys), destroys, x);
      } else {
        var rest := Minus(tail, destroys[h]);
        var later := FireOrder(rest, destroys);
        if x in destroys[h] {
          assert h in list[..n] && h in FireOrder(list, destroys) && x !in later;
        } else {
          MinusShorter(tail, destroys[h]);
          MinusDistinct(tail, destroys[h]);
          var m := MinusSplit(tail, destroys[h], n - 1);
          assert forall k :: k in later ==> (k in rest[..m] <==> k in before);
          FiresUnlessDestroyed(rest, destroys, m);
          hide *;
          SparedAlike(rest[..m], before, later, destroys, x);
          SparedByHead(h, before, later, destroys, x);
        }
      }
    }
  }

  // ---- The list itself -----------------------------------------------------------------------

  class Node {
    var next: Node?
    var prev: Node?
    var state: StopState?

    /** A node on no list. */
    constructor ()
      ensures next == null && prev == null && state == null
    {
      next, prev, state := null, null, null;
    }
  }

  class StopState {
    var stopped: bool
    var head: Node?
    ghost var nodes: seq<Node>

    /** `head`, `next` and `prev` spell out `nodes`, and every node on the list points back here. */
    ghost predicate Valid()
      reads this, nodes
    {
      && Distinct(nodes)
      && head == (if nodes == [] then null else nodes[0])
      && forall i :: 0 <= i < |nodes| ==> Spelled(nodes, i)
    }

    ghost predicate Spelled(list: seq<Node>, i: nat)
      reads list
      requires i < |list|
    {
      && list[i].state == this
      && list[i].next == (if i + 1 < |list| then list[i + 1] else null)
      && list[i].prev == (if i > 0 then list[i - 1] else null)
    }

    constructor ()
      ensures Valid() && nodes == [] && !stopped
    {
      stopped, head, nodes := false, null, [];
    }

    method Link(cb: Node)
      requires Valid() && cb !in nodes
      modifies this, cb, set n | n in nodes
      ensures Valid() && nodes == [cb] + old(nodes) && stopped == old(stopped)
    {
      cb.prev := null;
      cb.next := head;
      if head != null {
        head.prev := cb;
      }
      head := cb;
      cb.state := this;
      nodes := [cb] + nodes;
      forall i | 0 <= i < |nodes| ensures Spelled(nodes, i) {
        if i > 0 { assert old(Spelled(nodes, i - 1)); }
      }
    }

    /** Node `k` is spelled as if node `i` were not on the list. */
    ghost predicate SpelledAround(list: seq<Node>, i: nat, k: nat)
      reads list
      requires i < |list| && k < |list|
    {
      var after := if k + 1 == i then i + 1 else k + 1;
      var before := if k == i + 1 then i - 1 else k - 1;
      && list[k].state == this
      && list[k].next == (if after < |list| then list[after] else null)
      && list[k].prev == (if before >= 0 then list[before] else null)
    }

    /** The pointer writes of `unlink`: the neighbours of `cb` are joined. */
    method Splice(cb: Node, ghost i: nat)
      requires Valid() && i < |nodes| && nodes[i] == cb
      modifies this, set n | n in nodes
      ensures nodes == old(nodes) && stopped == old(stopped)
      ensures cb.state == null && cb.next == null && cb.prev == null
      ensures head == (if i > 0 then nodes[0] else if |nodes| > 1 then nodes[1] else null)
      ensures forall k :: 0 <= k < |nodes| && k != i ==> SpelledAround(nodes, i, k)
    {
      assert Spelled(nodes, i);
      if cb.prev != null {
        assert Spelled(nodes, i - 1);
        cb.prev.next := cb.next;
      } else {
        head := cb.next;
      }
      if cb.next != null {
        assert old(Spelled(nodes, i + 1));
        cb.next.prev := cb.prev;
      }
      cb.state := null;
      cb.prev, cb.next := null, null;
      forall k | 0 <= k < |nodes| && k != i ensures SpelledAround(nodes, i, k) {
        assert old(Spelled(nodes, k));
      }
    }

    method Unlink(cb: Node)
      requires Valid() && cb in nodes
      modifies this, set n | n in nodes
      ensures Valid() && nodes == Minus(old(nodes), [cb]) && stopped == old(stopped)
      ensures cb.state == null && cb.next == null && cb.prev == null
    {
      ghost var i :| 0 <= i < |nodes| && nodes[i] == cb;
      Splice(cb, i);
      ghost var was := nodes;
      MinusOne(was, i);
      MinusDistinct(was, [cb]);
      hide Minus, Distinct;
      Respelled(was, i);
      nodes := was[..i] + was[i + 1..];
    }

    lemma Respelled(was: seq<Node>, i: nat)
      requires i < |was| && forall k :: 0 <= k < |was| && k != i ==> SpelledAround(was, i, k)
      ensures var list := was[..i] + was[i + 1..]; forall j :: 0 <= j < |list| ==> Spelled(list, j)
    {
      var list := was[..i] + was[i + 1..];
      forall j | 0 <= j < |list| ensures Spelled(list, j) {
        if j < i { assert SpelledAround(was, i, j); } else { assert SpelledAround(was, i, j + 1); }
      }
    }

    /** `_arm` on this source's token: after the stop, the callback fires at once and the node is not linked. */
    method Arm(cb: Node, hasCallback: bool) returns (already: bool, firedNow: bool)
      requires Valid() && cb !in nodes
      modifies this, cb, set n | n in nodes
      ensures Valid() && already == old(stopped) && firedNow == (old(stopped) && hasCallback)
      ensures stopped == old(stopped)
      ensures nodes == (if old(stopped) then old(nodes) else [cb] + old(nodes))
      ensures old(stopped) ==> unchanged(this) && unchanged(nodes) && unchanged(cb)
    {
      if stopped {
        return true, hasCallback;
      }
      Link(cb);
      return false, false;
    }

    /**
      `request_stop`: a callback may destroy other nodes, on this list or on that of any other source in `world`. The keys
      of `destroys` are the nodes with a callback. Returns the nodes fired from the list, in order.
    */
    method RequestStop(destroys: map<Node, seq<Node>>, ghost world: set<StopState>) returns (flipped: bool, fired: seq<Node>)
      requires this in world && Wired(world) && Reaches(destroys, world)
      modifies world, NodesOf(world)
      ensures Wired(world) && stopped && flipped == !old(stopped)
      ensures flipped ==> nodes == [] && fired == FireOrder(old(nodes), destroys)
      ensures !flipped ==> fired == [] && nodes == old(nodes)
      ensures forall o :: o in world && o != this ==>
        o.stopped == old(o.stopped) && o.nodes == Minus(old(o.nodes), Victims(fired, destroys))
    {
      hide Minus, FireOrder, Distinct;
      fired := [];
      forall o | o in world ensures Minus(o.nodes, []) == o.nodes { MinusNothing(o.nodes); }
      if stopped {
        return false, fired;
      }
      ghost var start: map<StopState, (bool, seq<Node>)> := map o | o in world :: (o.stopped, o.nodes);
      stopped := true;
      fired := FireAll(destroys, world, start);
      flipped := true;
    }

    /** The loop: fires and unlinks the head until the list is empty. */
    method FireAll(destroys: map<Node, seq<Node>>, ghost world: set<StopState>, ghost start: map<StopState, (bool, seq<Node>)>)
      returns (fired: seq<Node>)
      requires this in world && Wired(world) && Reaches(destroys, world) && Lost(world - {this}, start, [])
      modifies world, NodesOf(world)
      ensures Wired(world) && stopped == old(stopped) && nodes == [] && fired == FireOrder(old(nodes), destroys)
      ensures Lost(world - {this}, start, Victims(fired, destroys))
    {
      hide *;
      fired := [];
      NoVictims(destroys);
      while head != null
        invariant Wired(world) && stopped == old(stopped)
        invariant NodesOf(world) <= old(NodesOf(world)) && Reaches(destroys, world)
        invariant forall x :: x in fired ==> x in destroys
        invariant fired + FireOrder(nodes, destroys) == FireOrder(old(nodes), destroys)
        invariant Lost(world - {this}, start, Victims(fired, destroys))
        decreases |nodes|
      {
        var cb: Node := head;
        ghost var gone := Victims(fired, destroys);
        var runs := FireHead(destroys, world, start, gone);
        if runs {
          Moved(fired, cb, FireOrder(nodes, destroys));
          VictimsStep(fired, cb, destroys);
          fired := fired + [cb];
        }
      }
      EmptyList(this, world);
    }

    /** One turn of the loop: the head leaves the list, then its callback runs, if it has one. */
    method FireHead(destroys: map<Node, seq<Node>>, ghost world: set<StopState>,
                    ghost start: map<StopState, (bool, seq<Node>)>, ghost gone: seq<Node>)
      returns (runs: bool)
      requires this in world && Wired(world) && Reaches(destroys, world) && head != null
      requires Lost(world - {this}, start, gone)
      modifies world, NodesOf(world)
      ensures Wired(world) && NodesOf(world) <= old(NodesOf(world)) && Reaches(destroys, world)
      ensures runs == (old(head) in destroys) && stopped == old(stopped) && |nodes| < |old(nodes)|
      ensures FireOrder(old(nodes), destroys) ==
        if runs then [old(head)] + FireOrder(nodes, destroys) else FireOrder(nodes, destroys)
      ensures Lost(world - {this}, start, if runs then gone + destroys[old(head)] else gone)
    {
      hide Minus, FireOrder, Distinct;
      var cb: Node := head;
      ghost var tail := nodes[1..];
      WiredIsPlaced(world);
      assert cb in nodes && cb.state == this;
      HeadGone(nodes);
      FireOrderStep(nodes, destroys);
      forall o | o in world && o != this ensures Minus(o.nodes, [cb]) == o.nodes { MinusNone(o.nodes, [cb]); }
      LeaveList(cb, world, Touched(destroys));
      assert nodes == tail;
      runs := cb in destroys;
      if runs {
        MinusShorter(nodes, destroys[cb]);
        forall o | o in world && o != this ensures Minus(Minus(start[o].1, gone), destroys[cb]) == Minus(start[o].1, gone + destroys[cb]) {
          MinusMinus(start[o].1, gone, destroys[cb]);
        }
        DestroyAll(destroys[cb], world, Touched(destroys));
        assert nodes == Minus(tail, destroys[cb]);
      }
    }
  }

  lemma HeadGone<T>(list: seq<T>)
    requires list != [] && Distinct(list)
    ensures Minus(list, [list[0]]) == list[1..]
  {
    MinusOne(list, 0);
  }

  /** Each of the sources has lost just the nodes `gone` since `start`, and was not stopped. */
  ghost predicate Lost(others: set<StopState>, start: map<StopState, (bool, seq<Node>)>, gone: seq<Node>)
    reads others
  {
    forall o :: o in others ==> o in start && o.stopped == start[o].0 && o.nodes == Minus(start[o].1, gone)
  }

  lemma NoVictims<T>(destroys: map<T, seq<T>>)
    ensures Victims([], destroys) == []
  {
  }

  lemma VictimsStep<T>(fired: seq<T>, x: T, destroys: map<T, seq<T>>)
    requires x in destroys && forall y :: y in fired ==> y in destroys
    ensures forall y :: y in fired + [x] ==> y in destroys
    ensures Victims(fired + [x], destroys) == Victims(fired, destroys) + destroys[x]
  {
    assert (fired + [x])[..|fired|] == fired;
  }

  lemma EmptyList(o: StopState, world: set<StopState>)
    requires o in world && Wired(world) && o.head == null
    ensures o.nodes == [] && forall destroys: map<Node, seq<Node>> :: FireOrder(o.nodes, destroys) == []
  {
  }

  lemma Moved<T>(front: seq<T>, x: T, back: seq<T>)
    ensures front + ([x] + back) == (front + [x]) + back
  {
  }

  // ---- Several sources ------------------------------------------------------------------------

  ghost function NodesOf(world: set<StopState>): set<Node>
    reads world
  {
    set o, n | o in world && n in o.nodes :: n
  }

  ghost predicate Wired(world: set<StopState>)
    reads world, NodesOf(world)
  {
    forall o :: o in world ==> assert forall n :: n in o.nodes ==> n in NodesOf(world); o.Valid()
  }

  lemma WiredIsPlaced(world: set<StopState>)
    requires Wired(world)
    ensures forall o, n :: o in world && n in o.nodes ==> n.state == o
    ensures forall n :: n in NodesOf(world) ==> Placed(n, world)
  {
    forall o, n | o in world && n in o.nodes ensures n.state == o {
      var i :| 0 <= i < |o.nodes| && o.nodes[i] == n;
      assert o.Spelled(o.nodes, i);
    }
  }

  /** The node is on no list, or on that of a source in `world`. */
  ghost predicate Placed(cb: Node, world: set<StopState>)
    reads cb, world
  {
    cb.state == null || (cb.state in world && cb in cb.state.nodes)
  }

  /** `~stop_callback_node`: a linked node leaves its list, whichever that is. */
  method LeaveList(cb: Node, ghost world: set<StopState>, ghost watched: set<Node>)
    requires Wired(world) && Placed(cb, world) && forall n :: n in watched ==> Placed(n, world)
    modifies world, NodesOf(world)
    ensures Wired(world) && cb.state == null
    ensures forall o :: o in world ==> o.nodes == Minus(old(o.nodes), [cb]) && o.stopped == old(o.stopped)
    ensures forall n :: n in watched ==> Placed(n, world)
  {
    WiredIsPlaced(world);
    hide Minus, Distinct;
    ghost var st := cb.state;
    forall o | o in world && o != st ensures Minus(o.nodes, [cb]) == o.nodes { MinusNone(o.nodes, [cb]); }
    forall o, n | o in world && o != st && n in o.nodes ensures st == null || n !in st.nodes { assert n.state == o; }
    if cb.state != null {
      cb.state.Unlink(cb);
      WiredIsPlaced(world);
    }
  }

  /** Destroying the nodes of `cbs`, in order. */
  method DestroyAll(cbs: seq<Node>, ghost world: set<StopState>, ghost watched: set<Node>)
    requires Wired(world) && (forall cb :: cb in cbs ==> cb in watched) && forall n :: n in watched ==> Placed(n, world)
    modifies world, NodesOf(world)
    ensures Wired(world)
    ensures forall o :: o in world ==> o.nodes == Minus(old(o.nodes), cbs) && o.stopped == old(o.stopped)
    ensures forall n :: n in watched ==> Placed(n, world)
  {
    hide Minus, Distinct;
    forall o | o in world ensures Minus(o.nodes, []) == o.nodes { MinusNothing(o.nodes); }
    for i := 0 to |cbs|
      invariant Wired(world)
      invariant forall o :: o in world ==> o.nodes == Minus(old(o.nodes), cbs[..i]) && o.stopped == old(o.stopped)
      invariant forall n :: n in watched ==> Placed(n, world)
    {
      forall o | o in world ensures Minus(Minus(old(o.nodes), cbs[..i]), [cbs[i]]) == Minus(old(o.nodes), cbs[..i + 1]) {
        MinusMinus(old(o.nodes), cbs[..i], [cbs[i]]);
        assert cbs[..i] + [cbs[i]] == cbs[..i + 1];
      }
      LeaveList(cbs[i], world, watched);
    }
    assert cbs[..|cbs|] == cbs;
  }

  /** The nodes some callback destroys. */
  ghost function Touched(destroys: map<Node, seq<Node>>): set<Node> {
    set n, cb | n in destroys && cb in destroys[n] :: cb
  }

  /** Every node a callback may touch is on a list of `world` or on none. */
  ghost predicate Reaches(destroys: map<Node, seq<Node>>, world: set<StopState>)
    reads world, Touched(destroys)
  {
    forall n :: n in Touched(destroys) ==> Placed(n, world)
  }

  /** What the fired callbacks destroyed, in order. */
  function Victims<T(==)>(fired: seq<T>, destroys: map<T, seq<T>>): seq<T>
    requires forall x :: x in fired ==> x in destroys
  {
    if fired == [] then []
    else Victims(fired[..|fired| - 1], destroys) + destroys[fired[|fired| - 1]]
  }
}
