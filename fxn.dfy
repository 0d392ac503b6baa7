/**
 * The function lifecycle: a compiled function owns an arena of the size its
 * compiler computed and, once installed, a handle to native code; a virtual
 * function is implemented natively and has neither. A handle is modelled as
 * a natural number, 0 standing for the null pointer.
 */
module Fxn {
  import opened Complex
  import opened Arena
  import opened Globals

  /** The disassembly text a virtual function carries. */
  function VirtualDisassembly(name: string): (d: string)
    ensures |d| == |"; virtual fxn "| + |name|
    ensures d[..|"; virtual fxn "|] == "; virtual fxn " && d[|"; virtual fxn "|..] == name
  {
    "; virtual fxn " + name
  }

  /**
   * Where the pointer a compiled function's code returns points: at the slot
   * of its own last store, or, when the code ends in a call of another
   * compiled function, at a value in that function's arena.
   */
  datatype Returned = LastStore | Callee(value: Cx)

  /** compiled_fxn<T>: a function produced by the compiler. */
  class CompiledFxn {
    const name: string
    const fxnName: string
    const parameterName: string
    /** the arena the generated code allocates its intermediate results from */
    const arena: FixedArena<Cx>
    /** the installed entry point; 0 is null */
    var handle: nat
    var disassembly: string
    /** whether release() has deleted the arena */
    var released: bool

    ghost predicate Valid()
      reads this`released, arena
    {
      arena.Valid() && (!released ==> arena.AllLive())
    }

    /**
     * The constructor keeps the three names, creates an arena of exactly
     * arenaSize zero slots and ignores the module bytes. The handle is left
     * uninitialised, as the source leaves it.
     */
    constructor (name: string, fxnName: string, parameterName: string, moduleBytes: seq<bv8>, arenaSize: nat)
      ensures Valid() && !released && fresh(arena)
      ensures this.name == name && this.fxnName == fxnName && this.parameterName == parameterName
      ensures arena.slots.Length == arenaSize && arena.index == 0
      ensures forall i :: 0 <= i < arenaSize ==> arena.slots[i] == Zero
      ensures disassembly == ""
    {
      this.name := name;
      this.fxnName := fxnName;
      this.parameterName := parameterName;
      arena := new FixedArena<Cx>(arenaSize, Zero);
      disassembly := "";
      released := false;
    }

    /**
     * install(): `h` is the handle the loader hands back and `text` the
     * disassembly of the module. The handle is stored and entered in the
     * function table under fxnName, overwriting any earlier entry.
     */
    method Install(h: nat, text: string, table: FxnTable)
      modifies this`handle, this`disassembly, table
      ensures handle == h && disassembly == text
      ensures table.entries == old(table.entries)[fxnName := h]
      ensures fxnName in table.entries && table.entries[fxnName] == h
      ensures forall k :: k in old(table.entries) && k != fxnName ==> k in table.entries && table.entries[k] == old(table.entries)[k]
    {
      handle := h;
      table.Put(fxnName, h);
      disassembly := text;
    }

    /** ready(): exactly when the handle is not null. */
    predicate Ready()
      reads this
    {
      handle != 0
    }

    /**
     * operator()(z): the native code runs, making one alloc() per value in
     * `stores` and writing that value into the slot. It then hands back a
     * pointer, described by `returned`: the slot of its own last store, or a
     * value in another function's arena when the code ends in a call. The
     * value behind the pointer is copied out, and only then is the cursor
     * reset. Code that stores nothing (a call applied to the parameter, say)
     * leaves the arena as it was apart from the reset.
     */
    method Invoke(stores: seq<Cx>, returned: Returned) returns (result: Cx)
      requires Valid() && !released && Ready()
      requires |stores| > 0 ==> arena.slots.Length > 0
      requires returned.LastStore? ==> |stores| > 0
      modifies arena`index, arena.slots
      ensures Valid() && arena.index == 0
      ensures result == if returned.Callee? then returned.value else stores[|stores| - 1]
      ensures arena.slots[..] == StoreRun(old(arena.slots[..]), old(arena.index), stores).0
      ensures old(arena.index) == 0 && |stores| <= arena.slots.Length ==>
        forall j :: 0 <= j < |stores| ==> arena.slots[j] == stores[j]
    {
      ghost var s0, c0 := arena.slots[..], arena.index;
      var last := 0;
      for i := 0 to |stores|
        invariant arena.Valid() && arena.AllLive()
        invariant (arena.slots[..], arena.index) == StoreRun(s0, c0, stores[..i])
        invariant i > 0 ==> last < arena.slots.Length && arena.slots[last] == stores[i - 1]
      {
        ghost var before := arena.slots[..];
        assert stores[..i + 1][..i] == stores[..i];
        last := arena.Alloc();
        arena.slots[last] := stores[i];
        assert arena.slots[..] == before[last := stores[i]];
      }
      match returned {
        case LastStore =>
          result := arena.slots[last];
        case Callee(v) =>
          result := v;
      }
      arena.Reset();
      assert stores[..|stores|] == stores;
      if c0 == 0 && |stores| <= arena.slots.Length {
        StoreRunFromReset(s0, stores);
      }
    }

    /**
     * release(): deletes every slot and then the arena. The handle is left
     * alone, so ready() answers as before; a second release would free the
     * arena twice and is excluded.
     */
    method Release()
      requires Valid() && !released
      modifies arena`live, this`released
      ensures Valid() && released
      ensures forall i :: 0 <= i < |arena.live| ==> !arena.live[i]
      ensures handle == old(handle) && Ready() == old(Ready())
    {
      arena.Release();
      released := true;
    }

    method GetName() returns (s: string)
      ensures s == name
    {
      s := name;
    }

    method GetFxnName() returns (s: string)
      ensures s == fxnName
    {
      s := fxnName;
    }

    method GetParameterName() returns (s: string)
      ensures s == parameterName
    {
      s := parameterName;
    }

    method GetDisassembly() returns (s: string)
      ensures s == disassembly
    {
      s := disassembly;
    }
  }

  /** virtual_fxn<T>: a natively implemented function, always ready, with nothing to release. */
  class VirtualFxn {
    const name: string
    const fxnName: string
    const parameterName: string
    const disassembly: string
    /** always null */
    const handle: nat
    /** always null */
    const arena: FixedArena?<Cx>

    constructor (name: string, fxnName: string, parameterName: string)
      ensures this.name == name && this.fxnName == fxnName && this.parameterName == parameterName
      ensures disassembly == VirtualDisassembly(name)
      ensures arena == null && handle == 0
    {
      this.name := name;
      this.fxnName := fxnName;
      this.parameterName := parameterName;
      disassembly := VirtualDisassembly(name);
      arena := null;
      handle := 0;
    }

    /** ready(): always true, although the handle is null. */
    method Ready() returns (r: bool)
      ensures r
    {
      r := true;
    }

    /** release(): only traces; no state changes. */
    method Release()
      ensures unchanged(this)
    {
    }

    /** The base fxn accessor get_name(), which a virtual_fxn inherits; repeated here since the two classes share no base. */
    method GetName() returns (s: string)
      ensures s == name
    {
      s := name;
    }

    /** The base fxn accessor get_disassembly(), which a virtual_fxn inherits. */
    method GetDisassembly() returns (s: string)
      ensures s == disassembly
    {
      s := disassembly;
    }
  }
}
