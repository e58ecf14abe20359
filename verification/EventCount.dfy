/**
 The event count: a 64-bit word with the epoch in the high half and the number of waiters in the low
 half.  Each operation is one fetch_add; a wait blocks while the epoch equals its key.
 */
module EventCount {

  const U32: nat := 0x1_0000_0000
  const U64: nat := 0x1_0000_0000_0000_0000

  const ADD_EPOCH: nat := U32          // k_add_epoch
  const ADD_WAITER: nat := 1           // k_add_waiter
  const SUB_WAITER: nat := U64 - 1     // k_sub_waiter

  function FetchAdd(word: nat, x: nat): nat { (word + x) % U64 }

  function Epoch(word: nat): nat { word / U32 }

  function Waiters(word: nat): nat { word % U32 }

  function Pack(bumps: nat, waiters: nat): nat
    requires waiters < U32
  {
    (bumps % U32) * U32 + waiters
  }

  /** While the waiters fit their half no operation disturbs the other half. */
  lemma HalvesIndependent(bumps: nat, waiters: nat)
    requires waiters < U32
    ensures Pack(bumps, waiters) < U64
    ensures Epoch(Pack(bumps, waiters)) == bumps % U32 && Waiters(Pack(bumps, waiters)) == waiters
    ensures FetchAdd(Pack(bumps, waiters), ADD_EPOCH) == Pack(bumps + 1, waiters)
    ensures waiters + 1 < U32 ==> FetchAdd(Pack(bumps, waiters), ADD_WAITER) == Pack(bumps, waiters + 1)
    ensures waiters > 0 ==> FetchAdd(Pack(bumps, waiters), SUB_WAITER) == Pack(bumps, waiters - 1)
  {
    var e, e' := bumps % U32, (bumps + 1) % U32;
    assert e' == if e == U32 - 1 then 0 else e + 1;
    assert Pack(bumps, waiters) == e * U32 + waiters;
    if waiters > 0 {
      assert Pack(bumps, waiters) + SUB_WAITER == U64 + Pack(bumps, waiters - 1);
    }
  }

  /** A full half carries: one waiter too many is read as an epoch. */
  lemma WaitersOverflow(bumps: nat)
    ensures FetchAdd(Pack(bumps, U32 - 1), ADD_WAITER) == Pack(bumps + 1, 0)
  {
    var e, e' := bumps % U32, (bumps + 1) % U32;
    assert e' == if e == U32 - 1 then 0 else e + 1;
    assert Pack(bumps, U32 - 1) == e * U32 + (U32 - 1);
  }

  /** The epoch tells a key from a later one exactly if their distance is no multiple of 2^32. */
  lemma KeyTells(mark: nat, bumps: nat)
    requires mark <= bumps
    ensures bumps % U32 == mark % U32 <==> (bumps - mark) % U32 == 0
    ensures bumps - mark < U32 ==> (bumps % U32 == mark % U32 <==> bumps == mark)
  {
    var k := bumps - mark;
    assert mark == U32 * (mark / U32) + mark % U32;
    assert bumps == U32 * (bumps / U32) + bumps % U32;
    assert k == U32 * (k / U32) + k % U32;
    if bumps % U32 == mark % U32 {
      assert k == U32 * (bumps / U32 - mark / U32);
    }
    if k % U32 == 0 {
      assert bumps - U32 * (mark / U32 + k / U32) == mark % U32;
    }
  }
}
