/** The ring with its buffer updated in place, as one thread sees a call of `try_push` or `try_pop`. */
module SpscQueues {
  import opened Options
  import opened Bits
  import Spsc

  class SpscQueue<T(0)> {
    const buffer: array<T>
    const bits: nat
    var head: nat
    var tail: nat
    ghost var pushed: seq<T>
    ghost var popped: nat

    /** Items `popped .. |pushed|` sit in their slots; the indices are those counts, wrapped. */
    ghost predicate Valid()
      reads this, buffer
    {
      && buffer.Length == Pow2(bits)
      && popped <= |pushed| < popped + buffer.Length
      && head == |pushed| % buffer.Length && tail == popped % buffer.Length
      && forall i :: popped <= i < |pushed| ==> buffer[i % buffer.Length] == pushed[i]
    }

    ghost function Contents(): seq<T>
      reads this, buffer
      requires Valid()
    {
      pushed[popped..]
    }

    constructor (bits: nat)
      ensures Valid() && Contents() == [] && this.bits == bits && fresh(buffer)
    {
      this.bits := bits;
      buffer := new T[Pow2(bits)];
      head, tail, pushed, popped := 0, 0, [], 0;
      new;
      ModUnique(0, Pow2(bits), 0, 0);
    }

    method TryPush(item: T) returns (ok: bool)
      requires Valid()
      modifies this, buffer
      ensures Valid()
      ensures ok <==> |old(Contents())| < buffer.Length - 1
      ensures Contents() == if ok then old(Contents()) + [item] else old(Contents())
    {
      AndLowMask(head + 1, bits);
      ModSucc(|pushed|, buffer.Length);
      Spsc.SameSlot(|pushed| + 1, popped, buffer.Length);
      var next := And(head + 1, buffer.Length - 1);
      if next == tail {
        return false;
      }
      forall i | popped <= i < |pushed| ensures i % buffer.Length != head {
        Spsc.SameSlot(|pushed|, i, buffer.Length);
      }
      buffer[head] := item;
      head := next;
      pushed := pushed + [item];
      return true;
    }

    method TryPop() returns (item: Option<T>)
      requires Valid()
      modifies this
      ensures Valid()
      ensures old(Contents()) == (if item.Some? then [item.value] else []) + Contents()
      ensures item.None? <==> old(Contents()) == []
    {
      AndLowMask(tail + 1, bits);
      ModSucc(popped, buffer.Length);
      Spsc.SameSlot(|pushed|, popped, buffer.Length);
      if tail == head {
        return None;
      }
      item := Some(buffer[tail]);
      tail := And(tail + 1, buffer.Length - 1);
      popped := popped + 1;
    }
  }
}
