/**
 * The morpheme library: fixed routines that generated code calls indirectly.
 * Every routine performs exactly one alloc() on the arena it is handed, stores
 * its result in that slot and returns the slot. The multiprecision routines
 * (_morpheme_*) receive pointers to their operands; they read them before
 * storing, so the operands are modelled by the values they point to. The
 * double-precision routines (_fmorpheme_*) receive the real and imaginary
 * parts as separate doubles.
 */
module Morphemes {
  import opened Complex
  import opened Arena

  /** The routines, as named by the pointers that generated code loads before an indirect call. */
  datatype Routine =
    | MpAdd | MpSub | MpMul | MpDiv | MpExp
    | MpSin | MpCos | MpTan | MpSinh | MpCosh | MpTanh | MpConj
    | FDiv | FExp
    | FWrap | FSin | FCos | FTan | FSinh | FCosh | FTanh

  /** The routines that take two doubles (one complex in split form) and the arena. */
  predicate IsF64x2(m: Routine) { m in {FWrap, FSin, FCos, FTan, FSinh, FCosh, FTanh} }

  /** The routines that take four doubles (two complex values in split form) and the arena. */
  predicate IsF64x4(m: Routine) { m in {FDiv, FExp} }

  /** mp add: stores *a + *b. */
  method MorphemeAdd(a: Cx, b: Cx, arena: FixedArena<Cx>) returns (r: nat)
    requires arena.Valid() && arena.AllLive() && arena.slots.Length > 0
    modifies arena`index, arena.slots
    ensures arena.StoredOnce(old(arena.index), old(arena.slots[..]), r, Add(a, b))
  {
    r := arena.Alloc();
    arena.slots[r] := Add(a, b);
  }

  /** mp mul: stores *a * *b. */
  method MorphemeMul(a: Cx, b: Cx, arena: FixedArena<Cx>) returns (r: nat)
    requires arena.Valid() && arena.AllLive() && arena.slots.Length > 0
    modifies arena`index, arena.slots
    ensures arena.StoredOnce(old(arena.index), old(arena.slots[..]), r, Mul(a, b))
  {
    r := arena.Alloc();
    arena.slots[r] := Mul(a, b);
  }

  /** mp sub: stores *a - *b. */
  method MorphemeSub(a: Cx, b: Cx, arena: FixedArena<Cx>) returns (r: nat)
    requires arena.Valid() && arena.AllLive() && arena.slots.Length > 0
    modifies arena`index, arena.slots
    ensures arena.StoredOnce(old(arena.index), old(arena.slots[..]), r, Sub(a, b))
  {
    r := arena.Alloc();
    arena.slots[r] := Sub(a, b);
  }

  /** mp div: stores *a / *b. */
  method MorphemeDiv(a: Cx, b: Cx, num: Numerics, arena: FixedArena<Cx>) returns (r: nat)
    requires arena.Valid() && arena.AllLive() && arena.slots.Length > 0
    modifies arena`index, arena.slots
    ensures arena.StoredOnce(old(arena.index), old(arena.slots[..]), r, Div(a, b, num))
  {
    r := arena.Alloc();
    arena.slots[r] := Div(a, b, num);
  }

  /** mp exp: stores pow(*a, *b). */
  method MorphemeExp(a: Cx, b: Cx, num: Numerics, arena: FixedArena<Cx>) returns (r: nat)
    requires arena.Valid() && arena.AllLive() && arena.slots.Length > 0
    modifies arena`index, arena.slots
    ensures arena.StoredOnce(old(arena.index), old(arena.slots[..]), r, num.pow(a, b))
  {
    r := arena.Alloc();
    arena.slots[r] := num.pow(a, b);
  }

  /** mp sin. */
  method MorphemeSin(a: Cx, num: Numerics, arena: FixedArena<Cx>) returns (r: nat)
    requires arena.Valid() && arena.AllLive() && arena.slots.Length > 0
    modifies arena`index, arena.slots
    ensures arena.StoredOnce(old(arena.index), old(arena.slots[..]), r, num.sin(a))
  {
    r := arena.Alloc();
    arena.slots[r] := num.sin(a);
  }

  /** mp cos. */
  method MorphemeCos(a: Cx, num: Numerics, arena: FixedArena<Cx>) returns (r: nat)
    requires arena.Valid() && arena.AllLive() && arena.slots.Length > 0
    modifies arena`index, arena.slots
    ensures arena.StoredOnce(old(arena.index), old(arena.slots[..]), r, num.cos(a))
  {
    r := arena.Alloc();
    arena.slots[r] := num.cos(a);
  }

  /** mp tan. */
  method MorphemeTan(a: Cx, num: Numerics, arena: FixedArena<Cx>) returns (r: nat)
    requires arena.Valid() && arena.AllLive() && arena.slots.Length > 0
    modifies arena`index, arena.slots
    ensures arena.StoredOnce(old(arena.index), old(arena.slots[..]), r, num.tan(a))
  {
    r := arena.Alloc();
    arena.slots[r] := num.tan(a);
  }

  /** mp sinh: as written it stores the sine of its argument, not the hyperbolic sine. */
  method MorphemeSinh(a: Cx, num: Numerics, arena: FixedArena<Cx>) returns (r: nat)
    requires arena.Valid() && arena.AllLive() && arena.slots.Length > 0
    modifies arena`index, arena.slots
    ensures arena.StoredOnce(old(arena.index), old(arena.slots[..]), r, num.sin(a))
  {
    r := arena.Alloc();
    arena.slots[r] := num.sin(a);
  }

  /** mp cosh: as written it stores the cosine of its argument. */
  method MorphemeCosh(a: Cx, num: Numerics, arena: FixedArena<Cx>) returns (r: nat)
    requires arena.Valid() && arena.AllLive() && arena.slots.Length > 0
    modifies arena`index, arena.slots
    ensures arena.StoredOnce(old(arena.index), old(arena.slots[..]), r, num.cos(a))
  {
    r := arena.Alloc();
    arena.slots[r] := num.cos(a);
  }

  /** mp tanh: as written it stores the tangent of its argument. */
  method MorphemeTanh(a: Cx, num: Numerics, arena: FixedArena<Cx>) returns (r: nat)
    requires arena.Valid() && arena.AllLive() && arena.slots.Length > 0
    modifies arena`index, arena.slots
    ensures arena.StoredOnce(old(arena.index), old(arena.slots[..]), r, num.tan(a))
  {
    r := arena.Alloc();
    arena.slots[r] := num.tan(a);
  }

  /** mp conj: stores (re a, -im a). */
  method MorphemeConj(a: Cx, arena: FixedArena<Cx>) returns (r: nat)
    requires arena.Valid() && arena.AllLive() && arena.slots.Length > 0
    modifies arena`index, arena.slots
    ensures arena.StoredOnce(old(arena.index), old(arena.slots[..]), r, Conj(a))
  {
    r := arena.Alloc();
    arena.slots[r] := Conj(a);
  }

  /** dp div: stores (a+bi)/(c+di). */
  method FMorphemeDiv(a: real, b: real, c: real, d: real, num: Numerics, arena: FixedArena<Cx>) returns (r: nat)
    requires arena.Valid() && arena.AllLive() && arena.slots.Length > 0
    modifies arena`index, arena.slots
    ensures arena.StoredOnce(old(arena.index), old(arena.slots[..]), r, Div(Cx(a, b), Cx(c, d), num))
  {
    r := arena.Alloc();
    arena.slots[r] := Div(Cx(a, b), Cx(c, d), num);
  }

  /** dp exp: stores (a+bi)^(c+di). */
  method FMorphemeExp(a: real, b: real, c: real, d: real, num: Numerics, arena: FixedArena<Cx>) returns (r: nat)
    requires arena.Valid() && arena.AllLive() && arena.slots.Length > 0
    modifies arena`index, arena.slots
    ensures arena.StoredOnce(old(arena.index), old(arena.slots[..]), r, num.pow(Cx(a, b), Cx(c, d)))
  {
    r := arena.Alloc();
    arena.slots[r] := num.pow(Cx(a, b), Cx(c, d));
  }

  /** dp wrap: stores exactly (a, b), turning a split pair into an arena pointer. */
  method FMorphemeWrap(a: real, b: real, arena: FixedArena<Cx>) returns (r: nat)
    requires arena.Valid() && arena.AllLive() && arena.slots.Length > 0
    modifies arena`index, arena.slots
    ensures arena.StoredOnce(old(arena.index), old(arena.slots[..]), r, Cx(a, b))
  {
    r := arena.Alloc();
    arena.slots[r] := Cx(a, b);
  }

  /** dp sin. */
  method FMorphemeSin(a: real, b: real, num: Numerics, arena: FixedArena<Cx>) returns (r: nat)
    requires arena.Valid() && arena.AllLive() && arena.slots.Length > 0
    modifies arena`index, arena.slots
    ensures arena.StoredOnce(old(arena.index), old(arena.slots[..]), r, num.sin(Cx(a, b)))
  {
    r := arena.Alloc();
    arena.slots[r] := num.sin(Cx(a, b));
  }

  /** dp cos. */
  method FMorphemeCos(a: real, b: real, num: Numerics, arena: FixedArena<Cx>) returns (r: nat)
    requires arena.Valid() && arena.AllLive() && arena.slots.Length > 0
    modifies arena`index, arena.slots
    ensures arena.StoredOnce(old(arena.index), old(arena.slots[..]), r, num.cos(Cx(a, b)))
  {
    r := arena.Alloc();
    arena.slots[r] := num.cos(Cx(a, b));
  }

  /** dp tan. */
  method FMorphemeTan(a: real, b: real, num: Numerics, arena: FixedArena<Cx>) returns (r: nat)
    requires arena.Valid() && arena.AllLive() && arena.slots.Length > 0
    modifies arena`index, arena.slots
    ensures arena.StoredOnce(old(arena.index), old(arena.slots[..]), r, num.tan(Cx(a, b)))
  {
    r := arena.Alloc();
    arena.slots[r] := num.tan(Cx(a, b));
  }

  /** dp sinh. */
  method FMorphemeSinh(a: real, b: real, num: Numerics, arena: FixedArena<Cx>) returns (r: nat)
    requires arena.Valid() && arena.AllLive() && arena.slots.Length > 0
    modifies arena`index, arena.slots
    ensures arena.StoredOnce(old(arena.index), old(arena.slots[..]), r, num.sinh(Cx(a, b)))
  {
    r := arena.Alloc();
    arena.slots[r] := num.sinh(Cx(a, b));
  }

  /** dp cosh. */
  method FMorphemeCosh(a: real, b: real, num: Numerics, arena: FixedArena<Cx>) returns (r: nat)
    requires arena.Valid() && arena.AllLive() && arena.slots.Length > 0
    modifies arena`index, arena.slots
    ensures arena.StoredOnce(old(arena.index), old(arena.slots[..]), r, num.cosh(Cx(a, b)))
  {
    r := arena.Alloc();
    arena.slots[r] := num.cosh(Cx(a, b));
  }

  /** dp tanh. */
  method FMorphemeTanh(a: real, b: real, num: Numerics, arena: FixedArena<Cx>) returns (r: nat)
    requires arena.Valid() && arena.AllLive() && arena.slots.Length > 0
    modifies arena`index, arena.slots
    ensures arena.StoredOnce(old(arena.index), old(arena.slots[..]), r, num.tanh(Cx(a, b)))
  {
    r := arena.Alloc();
    arena.slots[r] := num.tanh(Cx(a, b));
  }
}
