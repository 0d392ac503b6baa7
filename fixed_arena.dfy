/**
 * fixed_arena: a fixed-capacity bump allocator over preallocated value slots.
 * alloc() hands out slots in order and, once the cursor has passed the last
 * slot, starts again at slot 0; reset() puts the cursor back to 0. A slot is
 * identified by its index, which stands for the pointer the source returns.
 */
module Arena {
  /** One alloc() on an arena of n slots whose cursor is `cursor`: the slot handed out and the new cursor. */
  function AllocStep(cursor: nat, n: nat): (nat, nat) {
    if cursor >= n then (0, 1) else (cursor, cursor + 1)
  }

  /** The cursor after k alloc() calls that started at cursor c. */
  function CursorAfter(c: nat, n: nat, k: nat): nat
    decreases k
  {
    if k == 0 then c else AllocStep(CursorAfter(c, n, k - 1), n).1
  }

  /** The slot returned by the alloc() call numbered k (counting from 0) of a run that started at cursor c. */
  function SlotOfAlloc(c: nat, n: nat, k: nat): nat {
    AllocStep(CursorAfter(c, n, k), n).0
  }

  /**
   * The slot contents and the cursor after a run of alloc() calls, each
   * followed by a store of the next value into the slot it returned.
   */
  function StoreRun<T>(slots: seq<T>, c: nat, values: seq<T>): (r: (seq<T>, nat))
    ensures |r.0| == |slots|
    decreases |values|
  {
    if values == [] then (slots, c)
    else
      var (s, cursor) := StoreRun(slots, c, values[..|values| - 1]);
      var (slot, next) := AllocStep(cursor, |s|);
      if slot < |s| then (s[slot := values[|values| - 1]], next) else (s, cursor)
  }

  /** On an arena of n > 0 slots, alloc() keeps the cursor within 0..n. */
  lemma {:induction false} CursorStaysInRange(c: nat, n: nat, k: nat)
    requires 0 < n && c <= n
    ensures CursorAfter(c, n, k) <= n
    ensures k > 0 ==> CursorAfter(c, n, k) >= 1
  {
    if k > 0 {
      CursorStaysInRange(c, n, k - 1);
    }
  }

  /** After a reset, the first n alloc() calls return slots 0, 1, ..., n-1 in order. */
  lemma {:induction false} FirstRoundInOrder(n: nat, k: nat)
    requires k <= n
    ensures CursorAfter(0, n, k) == k
    ensures k < n ==> SlotOfAlloc(0, n, k) == k
  {
    if k > 0 {
      FirstRoundInOrder(n, k - 1);
    }
  }

  /**
   * After a reset, alloc() is periodic with period n: call k + n returns the same
   * slot as call k. Together with FirstRoundInOrder, call k returns slot k mod n.
   */
  lemma {:induction false} AllocPeriodic(n: nat, k: nat)
    requires n > 0
    ensures CursorAfter(0, n, k + n) == CursorAfter(0, n, k) || (k == 0 && CursorAfter(0, n, n) == n)
    ensures SlotOfAlloc(0, n, k + n) == SlotOfAlloc(0, n, k)
  {
    if k == 0 {
      FirstRoundInOrder(n, n);
    } else {
      AllocPeriodic(n, k - 1);
      FirstRoundInOrder(n, n);
      assert CursorAfter(0, n, k + n) == AllocStep(CursorAfter(0, n, k - 1 + n), n).1;
    }
  }

  /** After a reset, alloc() call q * n + r, for r < n, returns slot r. */
  lemma {:induction false} AllocInRound(n: nat, q: nat, r: nat)
    requires r < n
    ensures SlotOfAlloc(0, n, q * n + r) == r
    decreases q
  {
    if q == 0 {
      FirstRoundInOrder(n, r);
    } else {
      AllocInRound(n, q - 1, r);
      AllocPeriodic(n, (q - 1) * n + r);
      assert (q - 1) * n + r + n == q * n + r;
    }
  }

  /** After a reset, alloc() call k (counting from 0) returns slot k mod n. */
  lemma AllocModulo(n: nat, k: nat)
    requires n > 0
    ensures SlotOfAlloc(0, n, k) == k % n
  {
    AllocInRound(n, k / n, k % n);
    assert (k / n) * n + k % n == k;
  }

  /**
   * Starting from a reset cursor, a run of at most n stores puts value j into
   * slot j, leaves the later slots alone and never wraps around.
   */
  lemma {:induction false} StoreRunFromReset<T>(slots: seq<T>, values: seq<T>)
    requires |values| <= |slots|
    ensures StoreRun(slots, 0, values).1 == |values|
    ensures forall j :: 0 <= j < |values| ==> StoreRun(slots, 0, values).0[j] == values[j]
    ensures forall j :: |values| <= j < |slots| ==> StoreRun(slots, 0, values).0[j] == slots[j]
    decreases |values|
  {
    if values != [] {
      var prefix := values[..|values| - 1];
      StoreRunFromReset(slots, prefix);
      forall j | 0 <= j < |values| - 1
        ensures prefix[j] == values[j]
      {
      }
    }
  }

  class FixedArena<T> {
    /** the preallocated slots; never replaced, so the size is fixed at construction */
    const slots: array<T>
    /** the bump cursor */
    var index: nat
    /** whether each slot's value object is still allocated (release() deletes them all) */
    var live: seq<bool>

    ghost predicate Valid()
      reads this
    {
      index <= slots.Length && |live| == slots.Length
    }

    /** No slot has been deleted yet. */
    ghost predicate AllLive()
      reads this
    {
      forall i :: 0 <= i < |live| ==> live[i]
    }

    /**
     * The effect of one alloc() followed by one store through the returned slot:
     * the cursor advanced as alloc() does, `slot` now holds v and every other slot is as before.
     */
    ghost predicate StoredOnce(oldIndex: nat, oldSlots: seq<T>, slot: nat, v: T)
      reads this, slots
    {
      && Valid()
      && |oldSlots| == slots.Length
      && (slot, index) == AllocStep(oldIndex, slots.Length)
      && slot < slots.Length
      && slots[..] == oldSlots[slot := v]
    }

    /** fixed_arena(n): n slots, each holding the zero value, and the cursor at 0. */
    constructor (n: nat, zero: T)
      ensures Valid() && AllLive() && fresh(slots)
      ensures slots.Length == n && index == 0
      ensures forall i :: 0 <= i < n ==> slots[i] == zero
    {
      slots := new T[n](_ => zero);
      index := 0;
      live := seq(n, _ => true);
    }

    /** alloc(): the slot under the cursor, or slot 0 once the cursor has run past the end. */
    method Alloc() returns (slot: nat)
      requires Valid() && slots.Length > 0
      modifies this`index
      ensures Valid()
      ensures (slot, index) == AllocStep(old(index), slots.Length)
      ensures slot < slots.Length
      ensures old(index) < slots.Length ==> slot == old(index) && index == old(index) + 1
      ensures old(index) >= slots.Length ==> slot == 0 && index == 1
    {
      if index >= slots.Length {
        Reset();
      }
      slot := index;
      index := index + 1;
    }

    /** reset(): the cursor goes back to 0; no slot changes. */
    method Reset()
      requires Valid()
      modifies this`index
      ensures Valid() && index == 0
    {
      index := 0;
    }

    /** get_size(): the number of slots, which is the constructor's argument. */
    method GetSize() returns (n: nat)
      ensures n == slots.Length
    {
      n := slots.Length;
    }

    /** release(): deletes every slot's value object, one by one; the cursor and the slot vector stay. */
    method Release()
      requires Valid() && AllLive()
      modifies this`live
      ensures Valid() && index == old(index)
      ensures forall i :: 0 <= i < |live| ==> !live[i]
    {
      for i := 0 to |live|
        invariant |live| == slots.Length
        invariant forall j :: 0 <= j < i ==> !live[j]
      {
        live := live[i := false];
      }
    }
  }
}
