/** BarrierData as the C code keeps it: registration builds the index array in a loop, and each step of
    barrier_synchronize writes the shared flag array or the thread's own fields in place. */
module BarrierInPlace {
  import opened Barrier

  class BarrierData {
    const numberOfThreads: nat
    const bval: array<int>
    const index: array<nat>
    var offset: nat
    var val: int
    var pc: Pc

    function View(): Thread
      reads this, index
    {
      Thread(index[..], offset, val, pc)
    }

    ghost predicate Valid(t: nat)
      reads this, index
    {
      t < numberOfThreads && bval.Length == numberOfThreads * 32 && ThreadShape(View(), t, numberOfThreads)
    }

    /** barrier_registerThread. */
    constructor (threadId: nat, numberOfThreads: nat, bval: array<int>)
      requires threadId < numberOfThreads && bval.Length == numberOfThreads * 32
      ensures Valid(threadId) && this.bval == bval && this.numberOfThreads == numberOfThreads
      ensures View() == Registered(threadId, numberOfThreads)
      ensures fresh(index)
    {
      var order := new nat[numberOfThreads];
      order[0] := threadId;
      var j := 1;
      for i := 0 to numberOfThreads
        invariant j == (if i <= threadId then i + 1 else i) <= numberOfThreads
        invariant forall k :: 0 <= k < j ==> order[k] == Other(threadId, k)
      {
        if i != threadId {
          order[j] := i;
          j := j + 1;
        }
      }
      this.numberOfThreads, this.bval, index := numberOfThreads, bval, order;
      offset, val, pc := 0, 1, Outside;
      new;
      assert index[..] == IndexOf(threadId, numberOfThreads);
    }

    /** The store that opens barrier_synchronize. */
    method Enter(ghost t: nat)
      requires Valid(t) && pc.Outside?
      modifies this`pc, bval
      ensures Valid(t) && View() == EnterThread(old(View()))
      ensures bval[..] == EnterFlags(old(View()), old(bval[..]))
    {
      bval[index[0] * 32 + offset * 16] := val;
      pc := Spinning(1);
    }

    /** One turn of the spin loop; past the last entry, the flip of val and offset that ends the call. */
    method Check(ghost t: nat)
      requires Valid(t) && pc.Spinning?
      modifies this`pc, this`val, this`offset
      ensures Valid(t) && View() == CheckThread(old(View()), bval[..])
    {
      var i := pc.i;
      if i < numberOfThreads {
        assert index[i] == Other(t, i);
        if bval[index[i] * 32 + offset * 16] == val {
          pc := Spinning(i + 1);
        }
      } else {
        if offset != 0 {
          val := if val == 0 then 1 else 0;
        }
        offset := if offset == 0 then 1 else 0;
        pc := Outside;
      }
    }
  }
}
