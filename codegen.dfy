/**
 * The code generator's bookkeeping as values: the state a function visitor
 * carries (capability flags, arena size, the split/pointer flag, the emitted
 * instructions, the added locals and the multiprecision constants) and the
 * effect of each visit on it. The visitor class in MathCompiler is proved
 * to follow these functions step by step; the lemmas here state what the
 * effects mean.
 *
 * A complex intermediate is either in split form (two f64 values on the
 * stack, real part below imaginary part) or in pointer form (one i32, the
 * address of an arena slot written by a morpheme); needsUnwrap is true
 * exactly when the value on top is in pointer form.
 */
module CodeGen {
  import opened Wrappers
  import opened Complex
  import opened Morphemes
  import opened StackIR
  import opened Globals

  /** The capability bits of function_visitor::flags. */
  const USES_MPCX1: bv32 := 1
  const USES_MPCX2: bv32 := 2
  const GEN_SIMD: bv32 := 4
  const USES_F64X2: bv32 := 8
  const USES_F64X4: bv32 := 16
  const USES_UNWRAP: bv32 := 32
  const USES_BINARY: bv32 := 64
  const USES_DUPF64: bv32 := 128

  /** The entry point's parameters: the real and the imaginary part of z, locals 0 and 1. */
  const PARAMS: nat := 2

  datatype Gen = Gen(
    flags: bv32,
    arenaSize: nat,
    needsUnwrap: bool,
    code: seq<Instr>,
    /** the types of the locals added by addVar, numbered from PARAMS on */
    vars: seq<VType>,
    localConsts: seq<Cx>)

  /** A fresh visitor: no flags, no arena, split form, nothing emitted. */
  const Fresh: Gen := Gen(0, 0, false, [], [], [])

  /** The index addVar hands out next. */
  function NextLocal(g: Gen): nat {
    PARAMS + |g.vars|
  }

  function AddVars(g: Gen, types: seq<VType>): Gen {
    g.(vars := g.vars + types)
  }

  function Emit(g: Gen, instrs: seq<Instr>): Gen {
    g.(code := g.code + instrs)
  }

  /** visit_unwrap */
  function Unwrap(g: Gen): Gen {
    if !g.needsUnwrap then g
    else
      var t := NextLocal(g);
      Emit(AddVars(g, [I32, F64]), UnwrapCode(t, t + 1)).(flags := g.flags | USES_UNWRAP, needsUnwrap := false)
  }

  /** visit_f64x2: unwrap, then call a routine taking one complex in split form. */
  function F64x2(g: Gen, m: Routine): Gen {
    var u := Unwrap(g);
    Emit(u, CallCode(m, SigDDI)).(arenaSize := u.arenaSize + 1, flags := u.flags | USES_F64X2, needsUnwrap := true)
  }

  /** visit_f64x4: unwrap, then call a routine taking two complex values in split form. */
  function F64x4(g: Gen, m: Routine): Gen {
    var u := Unwrap(g);
    Emit(u, CallCode(m, SigDDDDI)).(arenaSize := u.arenaSize + 1, flags := u.flags | USES_F64X4, needsUnwrap := true)
  }

  /** visit_mpcx1 */
  function Mpcx1(g: Gen, m: Routine): Gen {
    Emit(g, CallCode(m, SigII)).(arenaSize := g.arenaSize + 1, flags := g.flags | USES_MPCX1)
  }

  /** visit_mpcx2 */
  function Mpcx2(g: Gen, m: Routine): Gen {
    Emit(g, CallCode(m, SigIII)).(arenaSize := g.arenaSize + 2, flags := g.flags | USES_MPCX2)
  }

  /** visit_binary_splat */
  function Splat(g: Gen, op: BinOp): Gen {
    var n := NextLocal(g);
    Emit(AddVars(g, [F64, F64, F64]), SplatCode(op, n, n + 1, n + 2))
  }

  /** visit_add */
  function AddOp(g: Gen): Gen {
    Splat(Unwrap(g), AddF64)
  }

  /** visit_sub */
  function SubOp(g: Gen): Gen {
    Splat(Unwrap(g), SubF64)
  }

  /** visit_binary: the four operand stores; the first of the four new locals is returned with the state. */
  function BinaryStores(g: Gen): (Gen, nat) {
    var v := NextLocal(g);
    (Emit(AddVars(g, [F64, F64, F64, F64]), BinaryStoreCode(v)).(flags := g.flags | USES_BINARY), v)
  }

  /** visit_mul */
  function MulOp(g: Gen): Gen {
    var (b, v) := BinaryStores(Unwrap(g));
    Emit(b, MulTailCode(v))
  }

  /** visit_div: division goes through the f64x4 division morpheme. */
  function DivOp(g: Gen): Gen {
    F64x4(g, FDiv)
  }

  /** visit_complex(std::complex<double>): two f64 constants; nothing is unwrapped. */
  function ComplexDp(g: Gen, z: Cx): Gen {
    Emit(g, [Const(F64Lit(z.re)), Const(F64Lit(z.im))])
  }

  /**
   * visit_complex(mp_complex): z is recorded among the local constants unless
   * already there. The global read it prepares is never emitted.
   */
  function ComplexMp(g: Gen, z: Cx): Gen {
    if z in g.localConsts then g else g.(localConsts := g.localConsts + [z])
  }

  /** visit_variable_dp: unwrap first; then the parameter, a double-precision constant, or failure. */
  function VariableDp(g: Gen, name: string, param: string): (Gen, bool) {
    var u := Unwrap(g);
    if name == param then (Emit(u, [LocalGet(0), LocalGet(1)]), true)
    else if name in ConstsDp() then (ComplexDp(u, ConstsDp()[name]), true)
    else (u, false)
  }

  /** visit_variable_mp: the parameter (an i32 pointer in local 0), a multiprecision constant's address, or failure. */
  function VariableMp(g: Gen, name: string, param: string): (Gen, bool) {
    if name == param then (Emit(g, [LocalGet(0)]), true)
    else if name in ConstsMp() then (Emit(g, [Const(ConstPtr(name))]), true)
    else (g, false)
  }

  /** visit_dupi32 */
  function Dupi32(g: Gen): Gen {
    var t := NextLocal(g);
    Emit(AddVars(g, [I32]), [LocalTee(t), LocalGet(t)])
  }

  /** visit_dupf64 */
  function Dupf64(g: Gen): Gen {
    var t := NextLocal(g);
    Emit(AddVars(g, [F64]), [LocalTee(t), LocalGet(t)]).(flags := g.flags | USES_DUPF64)
  }

  /** visit_fxncall with the handle found in the function table: the argument is not unwrapped. */
  function Fxncall(g: Gen, handle: nat): Gen {
    Emit(g, [Const(I32Lit(handle)), CallIndirect(SigDD)]).(needsUnwrap := true)
  }

  /** Function visit_end: wrap a split-form result through the wrap morpheme, then return. */
  function End(g: Gen): Gen {
    var w := if !g.needsUnwrap then F64x2(g, FWrap) else g;
    Emit(w, [Return])
  }

  /** The unary morpheme table. */
  function UnaryMorpheme(op: string): Option<Routine> {
    if op == "sin" then Some(FSin)
    else if op == "cos" then Some(FCos)
    else if op == "tan" then Some(FTan)
    else if op == "sinh" then Some(FSinh)
    else if op == "cosh" then Some(FCosh)
    else if op == "tanh" then Some(FTanh)
    else None
  }

  /** The binary morpheme table. */
  function BinaryMorpheme(op: string): Option<Routine> {
    if op == "^" then Some(FExp) else None
  }

  /** math_compiler_dp::visit_operator; None where the source aborts. */
  function Operator(g: Gen, op: string): Option<Gen> {
    if op == "+" then Some(AddOp(g))
    else if op == "-" then Some(SubOp(g))
    else if op == "*" then Some(MulOp(g))
    else if op == "/" then Some(DivOp(g))
    else if UnaryMorpheme(op).Some? then Some(F64x2(g, UnaryMorpheme(op).value))
    else if BinaryMorpheme(op).Some? then Some(F64x4(g, BinaryMorpheme(op).value))
    else None
  }

  /** One entry of the postfix stream handed to the compiler: a type code and its text. */
  datatype Token = Token(ttype: int, value: string)

  const NUMBER: int := 0
  const IDENTIFIER: int := 1
  const OPERATOR: int := 2
  const FXNCALL: int := 3

  /** Why compilation stops; each stands for a place where the source aborts or fails an assert. */
  datatype CompileError =
    | EmptyExpression
    | MalformedNumber(text: string)
    | UnknownIdentifier(name: string)
    | UnknownOperator(op: string)
    | UnknownFunction(fxn: string)
    | UnknownTokenType(code: int)

  /**
   * One token of compile(). `parse` stands for the multiprecision parser the
   * source uses for number literals; the function table is threaded through
   * because the lookup of a function call inserts an entry.
   */
  function TokenGen(g: Gen, table: map<string, nat>, tok: Token, param: string, parse: string -> Option<Cx>)
    : Result<(Gen, map<string, nat>), CompileError>
  {
    if tok.ttype == NUMBER then
      match parse(tok.value)
      case None => Err(MalformedNumber(tok.value))
      case Some(z) => Ok((ComplexDp(g, z), table))
    else if tok.ttype == IDENTIFIER then
      var (r, ok) := VariableDp(g, tok.value, param);
      if ok then Ok((r, table)) else Err(UnknownIdentifier(tok.value))
    else if tok.ttype == OPERATOR then
      match Operator(g, tok.value)
      case None => Err(UnknownOperator(tok.value))
      case Some(r) => Ok((r, table))
    else if tok.ttype == FXNCALL then
      var t := SubscriptEntries(table, tok.value);
      if t[tok.value] == 0 then Err(UnknownFunction(tok.value))
      else Ok((Fxncall(g, t[tok.value]), t))
    else Err(UnknownTokenType(tok.ttype))
  }

  /** The visitor state and function table after the tokens, from a fresh visitor; the first error ends the run. */
  function CompileGen(tokens: seq<Token>, table: map<string, nat>, param: string, parse: string -> Option<Cx>)
    : Result<(Gen, map<string, nat>), CompileError>
    decreases |tokens|
  {
    if tokens == [] then Ok((Fresh, table))
    else
      match CompileGen(tokens[..|tokens| - 1], table, param, parse)
      case Err(e) => Err(e)
      case Ok((g, t)) => TokenGen(g, t, tokens[|tokens| - 1], param, parse)
  }

  /** The arena slots one instruction reserves: one per morpheme call, two for a two-operand multiprecision call. */
  function Weight(ins: Instr): nat {
    match ins
    case CallIndirect(SigII) => 1
    case CallIndirect(SigIII) => 2
    case CallIndirect(SigDDI) => 1
    case CallIndirect(SigDDDDI) => 1
    case _ => 0
  }

  function ArenaCost(code: seq<Instr>): nat
    decreases |code|
  {
    if code == [] then 0 else Weight(code[0]) + ArenaCost(code[1..])
  }

  lemma {:induction false} ArenaCostAppend(a: seq<Instr>, b: seq<Instr>)
    ensures ArenaCost(a + b) == ArenaCost(a) + ArenaCost(b)
    decreases |a|
  {
    if a == [] {
      assert a + b == b;
    } else {
      assert (a + b)[0] == a[0] && (a + b)[1..] == a[1..] + b;
      ArenaCostAppend(a[1..], b);
    }
  }

  /** Whether the code calls a routine that takes the arena. */
  predicate CallsArenaRoutine(code: seq<Instr>) {
    CallIndirect(SigII) in code || CallIndirect(SigIII) in code
    || CallIndirect(SigDDI) in code || CallIndirect(SigDDDDI) in code
  }

  /**
   * What the visitor's counters mean: arenaSize is exactly the number of
   * arena slots the emitted calls reserve, GEN_SIMD is never set, each call
   * flag is set exactly when a call of its kind has been emitted, the unwrap
   * flag exactly when a load has, and the arena global is read exactly when
   * some arena routine is called.
   */
  ghost predicate Inv(g: Gen) {
    && g.arenaSize == ArenaCost(g.code)
    && g.flags & GEN_SIMD == 0
    && (g.flags & USES_MPCX1 != 0 <==> CallIndirect(SigII) in g.code)
    && (g.flags & USES_MPCX2 != 0 <==> CallIndirect(SigIII) in g.code)
    && (g.flags & USES_F64X2 != 0 <==> CallIndirect(SigDDI) in g.code)
    && (g.flags & USES_F64X4 != 0 <==> CallIndirect(SigDDDDI) in g.code)
    && (g.flags & USES_UNWRAP != 0 <==> Load(8) in g.code)
    && (GlobalGet("_arena") in g.code <==> CallsArenaRoutine(g.code))
  }

  /** A fresh visitor satisfies the invariant. */
  lemma FreshInv()
    ensures Inv(Fresh)
    ensures Fresh.flags == 0 && Fresh.arenaSize == 0 && !Fresh.needsUnwrap && Fresh.localConsts == []
  {
  }

  /**
   * The eight capability flags are distinct single bits, so OR-ing one in
   * sets it and leaves every other bit as it was.
   */
  lemma FlagBits(f: bv32, x: bv32, y: bv32)
    requires x in {USES_MPCX1, USES_MPCX2, GEN_SIMD, USES_F64X2, USES_F64X4, USES_UNWRAP, USES_BINARY, USES_DUPF64}
    requires y in {USES_MPCX1, USES_MPCX2, GEN_SIMD, USES_F64X2, USES_F64X4, USES_UNWRAP, USES_BINARY, USES_DUPF64}
    ensures (f | x) & x == x
    ensures x != y ==> x & y == 0 && ((f | x) & y == f & y)
  {
  }

  /** An instruction the invariant does not track: no arena routine call, no load, no global read. */
  predicate Plain(ins: Instr) {
    !ins.Load? && !ins.GlobalGet? && (ins.CallIndirect? ==> ins.sig == SigDD)
  }

  lemma {:induction false} PlainCostsNothing(instrs: seq<Instr>)
    requires forall ins :: ins in instrs ==> Weight(ins) == 0
    ensures ArenaCost(instrs) == 0
    decreases |instrs|
  {
    if instrs != [] {
      assert instrs[0] in instrs;
      PlainCostsNothing(instrs[1..]);
    }
  }

  /** The unwrap sequence reserves nothing, calls nothing, reads no global and contains the imaginary-part load. */
  lemma UnwrapCodeFacts(t: nat, k: nat)
    ensures ArenaCost(UnwrapCode(t, k)) == 0
    ensures forall sig :: CallIndirect(sig) !in UnwrapCode(t, k)
    ensures GlobalGet("_arena") !in UnwrapCode(t, k) && Load(8) in UnwrapCode(t, k)
  {
    PlainCostsNothing(UnwrapCode(t, k));
  }

  /** A morpheme call sequence reserves the slots of its signature and reads the arena global. */
  lemma CallCodeFacts(m: Routine, sig: Sig)
    ensures ArenaCost(CallCode(m, sig)) == Weight(CallIndirect(sig))
    ensures forall s :: CallIndirect(s) in CallCode(m, sig) <==> s == sig
    ensures GlobalGet("_arena") in CallCode(m, sig) && Load(8) !in CallCode(m, sig)
  {
    var c := CallCode(m, sig);
    assert c[1..][1..] == [CallIndirect(sig)];
    assert ArenaCost(c) == ArenaCost(c[1..][1..]);
  }

  /** Plain code keeps each cost and membership the invariant tracks. */
  lemma AppendPlain(a: seq<Instr>, b: seq<Instr>)
    requires forall ins :: ins in b ==> Plain(ins)
    ensures ArenaCost(a + b) == ArenaCost(a)
    ensures forall s :: s != SigDD ==> (CallIndirect(s) in a + b <==> CallIndirect(s) in a)
    ensures Load(8) in a + b <==> Load(8) in a
    ensures GlobalGet("_arena") in a + b <==> GlobalGet("_arena") in a
    ensures CallsArenaRoutine(a + b) <==> CallsArenaRoutine(a)
  {
    ArenaCostAppend(a, b);
    PlainCostsNothing(b);
  }

  /** OR-ing in the unwrap bit leaves the call bits and GEN_SIMD alone. */
  lemma OrUnwrap(f: bv32)
    ensures (f | USES_UNWRAP) & USES_UNWRAP != 0
    ensures (f | USES_UNWRAP) & GEN_SIMD == f & GEN_SIMD
    ensures (f | USES_UNWRAP) & USES_MPCX1 == f & USES_MPCX1 && (f | USES_UNWRAP) & USES_MPCX2 == f & USES_MPCX2
    ensures (f | USES_UNWRAP) & USES_F64X2 == f & USES_F64X2 && (f | USES_UNWRAP) & USES_F64X4 == f & USES_F64X4
  {
  }

  lemma OrF64x2(f: bv32)
    ensures (f | USES_F64X2) & USES_F64X2 != 0
    ensures (f | USES_F64X2) & GEN_SIMD == f & GEN_SIMD && (f | USES_F64X2) & USES_UNWRAP == f & USES_UNWRAP
    ensures (f | USES_F64X2) & USES_MPCX1 == f & USES_MPCX1 && (f | USES_F64X2) & USES_MPCX2 == f & USES_MPCX2
    ensures (f | USES_F64X2) & USES_F64X4 == f & USES_F64X4
  {
  }

  lemma OrF64x4(f: bv32)
    ensures (f | USES_F64X4) & USES_F64X4 != 0
    ensures (f | USES_F64X4) & GEN_SIMD == f & GEN_SIMD && (f | USES_F64X4) & USES_UNWRAP == f & USES_UNWRAP
    ensures (f | USES_F64X4) & USES_MPCX1 == f & USES_MPCX1 && (f | USES_F64X4) & USES_MPCX2 == f & USES_MPCX2
    ensures (f | USES_F64X4) & USES_F64X2 == f & USES_F64X2
  {
  }

  lemma OrMpcx1(f: bv32)
    ensures (f | USES_MPCX1) & USES_MPCX1 != 0
    ensures (f | USES_MPCX1) & GEN_SIMD == f & GEN_SIMD && (f | USES_MPCX1) & USES_UNWRAP == f & USES_UNWRAP
    ensures (f | USES_MPCX1) & USES_F64X2 == f & USES_F64X2 && (f | USES_MPCX1) & USES_MPCX2 == f & USES_MPCX2
    ensures (f | USES_MPCX1) & USES_F64X4 == f & USES_F64X4
  {
  }

  lemma OrMpcx2(f: bv32)
    ensures (f | USES_MPCX2) & USES_MPCX2 != 0
    ensures (f | USES_MPCX2) & GEN_SIMD == f & GEN_SIMD && (f | USES_MPCX2) & USES_UNWRAP == f & USES_UNWRAP
    ensures (f | USES_MPCX2) & USES_F64X2 == f & USES_F64X2 && (f | USES_MPCX2) & USES_MPCX1 == f & USES_MPCX1
    ensures (f | USES_MPCX2) & USES_F64X4 == f & USES_F64X4
  {
  }

  lemma OrBinary(f: bv32)
    ensures (f | USES_BINARY) & USES_BINARY != 0
    ensures (f | USES_BINARY) & GEN_SIMD == f & GEN_SIMD && (f | USES_BINARY) & USES_UNWRAP == f & USES_UNWRAP
    ensures (f | USES_BINARY) & USES_F64X2 == f & USES_F64X2 && (f | USES_BINARY) & USES_MPCX1 == f & USES_MPCX1
    ensures (f | USES_BINARY) & USES_F64X4 == f & USES_F64X4 && (f | USES_BINARY) & USES_MPCX2 == f & USES_MPCX2
  {
  }

  lemma OrDupf64(f: bv32)
    ensures (f | USES_DUPF64) & GEN_SIMD == f & GEN_SIMD && (f | USES_DUPF64) & USES_UNWRAP == f & USES_UNWRAP
    ensures (f | USES_DUPF64) & USES_F64X2 == f & USES_F64X2 && (f | USES_DUPF64) & USES_MPCX1 == f & USES_MPCX1
    ensures (f | USES_DUPF64) & USES_F64X4 == f & USES_F64X4 && (f | USES_DUPF64) & USES_MPCX2 == f & USES_MPCX2
  {
  }

  /**
   * visit_unwrap emits code only when the top is a pointer, always leaves
   * split form, never changes the arena size, and keeps the invariant.
   */
  lemma UnwrapFacts(g: Gen)
    ensures !Unwrap(g).needsUnwrap && Unwrap(g).arenaSize == g.arenaSize
    ensures !g.needsUnwrap ==> Unwrap(g) == g
    ensures g.needsUnwrap ==> Unwrap(g).code == g.code + UnwrapCode(NextLocal(g), NextLocal(g) + 1)
    ensures g.needsUnwrap ==> Unwrap(g).flags & USES_UNWRAP != 0
    ensures Inv(g) ==> Inv(Unwrap(g))
  {
    if g.needsUnwrap {
      var t := NextLocal(g);
      var c := UnwrapCode(t, t + 1);
      UnwrapCodeFacts(t, t + 1);
      ArenaCostAppend(g.code, c);
      OrUnwrap(g.flags);
    }
  }

  /**
   * A double-precision morpheme call reserves exactly one arena slot, sets
   * its own flag, leaves the result in pointer form and keeps the invariant.
   */
  lemma F64x2Facts(g: Gen, m: Routine)
    ensures F64x2(g, m).arenaSize == g.arenaSize + 1 && F64x2(g, m).needsUnwrap
    ensures F64x2(g, m).flags & USES_F64X2 != 0
    ensures Inv(g) ==> Inv(F64x2(g, m))
  {
    UnwrapFacts(g);
    var u := Unwrap(g);
    CallCodeFacts(m, SigDDI);
    ArenaCostAppend(u.code, CallCode(m, SigDDI));
    OrF64x2(u.flags);
  }

  lemma F64x4Facts(g: Gen, m: Routine)
    ensures F64x4(g, m).arenaSize == g.arenaSize + 1 && F64x4(g, m).needsUnwrap
    ensures F64x4(g, m).flags & USES_F64X4 != 0
    ensures Inv(g) ==> Inv(F64x4(g, m))
  {
    UnwrapFacts(g);
    var u := Unwrap(g);
    CallCodeFacts(m, SigDDDDI);
    ArenaCostAppend(u.code, CallCode(m, SigDDDDI));
    OrF64x4(u.flags);
  }

  /**
   * A multiprecision morpheme call reserves one slot (two for two operands),
   * sets its own flag, does not touch the split/pointer flag and keeps the invariant.
   */
  lemma Mpcx1Facts(g: Gen, m: Routine)
    ensures Mpcx1(g, m).arenaSize == g.arenaSize + 1 && Mpcx1(g, m).needsUnwrap == g.needsUnwrap
    ensures Mpcx1(g, m).flags & USES_MPCX1 != 0
    ensures Inv(g) ==> Inv(Mpcx1(g, m))
  {
    CallCodeFacts(m, SigII);
    ArenaCostAppend(g.code, CallCode(m, SigII));
    OrMpcx1(g.flags);
  }

  lemma Mpcx2Facts(g: Gen, m: Routine)
    ensures Mpcx2(g, m).arenaSize == g.arenaSize + 2 && Mpcx2(g, m).needsUnwrap == g.needsUnwrap
    ensures Mpcx2(g, m).flags & USES_MPCX2 != 0
    ensures Inv(g) ==> Inv(Mpcx2(g, m))
  {
    CallCodeFacts(m, SigIII);
    ArenaCostAppend(g.code, CallCode(m, SigIII));
    OrMpcx2(g.flags);
  }

  /** Appending plain code without touching the flags or the arena size keeps the invariant. */
  lemma EmitPlainKeepsInv(g: Gen, instrs: seq<Instr>)
    requires Inv(g)
    requires forall ins :: ins in instrs ==> Plain(ins)
    ensures Inv(Emit(g, instrs))
  {
    AppendPlain(g.code, instrs);
  }

  /** visit_binary_splat keeps the form, the arena size and the invariant. */
  lemma SplatFacts(g: Gen, op: BinOp)
    ensures Splat(g, op).needsUnwrap == g.needsUnwrap && Splat(g, op).arenaSize == g.arenaSize
    ensures Inv(g) ==> Inv(Splat(g, op))
  {
    if Inv(g) {
      var n := NextLocal(g);
      EmitPlainKeepsInv(AddVars(g, [F64, F64, F64]), SplatCode(op, n, n + 1, n + 2));
    }
  }

  /** visit_add and visit_sub leave a split-form result, reserve no arena slot and keep the invariant. */
  lemma AddSubFacts(g: Gen)
    ensures !AddOp(g).needsUnwrap && AddOp(g).arenaSize == g.arenaSize
    ensures !SubOp(g).needsUnwrap && SubOp(g).arenaSize == g.arenaSize
    ensures Inv(g) ==> Inv(AddOp(g)) && Inv(SubOp(g))
  {
    UnwrapFacts(g);
    SplatFacts(Unwrap(g), AddF64);
    SplatFacts(Unwrap(g), SubF64);
  }

  /** visit_binary's operand stores keep the form and the arena size, set USES_BINARY and keep the invariant. */
  lemma BinaryStoresFacts(u: Gen)
    ensures BinaryStores(u).0.needsUnwrap == u.needsUnwrap && BinaryStores(u).0.arenaSize == u.arenaSize
    ensures BinaryStores(u).0.flags & USES_BINARY != 0
    ensures BinaryStores(u).1 == NextLocal(u)
    ensures Inv(u) ==> Inv(BinaryStores(u).0)
  {
    var v := NextLocal(u);
    var h := Emit(AddVars(u, [F64, F64, F64, F64]), BinaryStoreCode(v));
    assert h.flags == u.flags;
    assert BinaryStores(u).0 == h.(flags := h.flags | USES_BINARY);
    OrBinary(h.flags);
    if Inv(u) {
      EmitPlainKeepsInv(AddVars(u, [F64, F64, F64, F64]), BinaryStoreCode(v));
      BinaryFlagKeepsInv(h);
    }
  }

  /** Setting USES_BINARY touches none of the flags the invariant constrains. */
  lemma BinaryFlagKeepsInv(h: Gen)
    requires Inv(h)
    ensures Inv(h.(flags := h.flags | USES_BINARY))
  {
    OrBinary(h.flags);
  }

  /** visit_mul leaves a split-form result, reserves no arena slot, sets USES_BINARY and keeps the invariant. */
  lemma MulFacts(g: Gen)
    ensures !MulOp(g).needsUnwrap && MulOp(g).arenaSize == g.arenaSize
    ensures MulOp(g).flags & USES_BINARY != 0
    ensures Inv(g) ==> Inv(MulOp(g))
  {
    UnwrapFacts(g);
    var u := Unwrap(g);
    BinaryStoresFacts(u);
    var (b, v) := BinaryStores(u);
    if Inv(g) {
      EmitPlainKeepsInv(b, MulTailCode(v));
    }
  }

  /** A number literal pushes two constants without unwrapping what is below: the form and the counters stay. */
  lemma ComplexDpFacts(g: Gen, z: Cx)
    ensures ComplexDp(g, z).needsUnwrap == g.needsUnwrap && ComplexDp(g, z).arenaSize == g.arenaSize
    ensures ComplexDp(g, z).flags == g.flags
    ensures Inv(g) ==> Inv(ComplexDp(g, z))
  {
    if Inv(g) {
      EmitPlainKeepsInv(g, [Const(F64Lit(z.re)), Const(F64Lit(z.im))]);
    }
  }

  /**
   * visit_variable_dp succeeds exactly for the parameter and the
   * double-precision constants; either way it has unwrapped, so the form is
   * split, and it reserves nothing and keeps the invariant.
   */
  lemma VariableDpFacts(g: Gen, name: string, param: string)
    ensures VariableDp(g, name, param).1 <==> name == param || name in ConstsDp()
    ensures !VariableDp(g, name, param).0.needsUnwrap
    ensures VariableDp(g, name, param).0.arenaSize == g.arenaSize
    ensures Inv(g) ==> Inv(VariableDp(g, name, param).0)
  {
    UnwrapFacts(g);
    var u := Unwrap(g);
    if Inv(g) {
      EmitPlainKeepsInv(u, [LocalGet(0), LocalGet(1)]);
      if name in ConstsDp() {
        ComplexDpFacts(u, ConstsDp()[name]);
      }
    }
  }

  /** visit_fxncall leaves a pointer on top, reserves nothing of this function's arena and keeps the invariant. */
  lemma FxncallFacts(g: Gen, handle: nat)
    ensures Fxncall(g, handle).needsUnwrap && Fxncall(g, handle).arenaSize == g.arenaSize
    ensures Inv(g) ==> Inv(Fxncall(g, handle))
  {
    if Inv(g) {
      EmitPlainKeepsInv(g, [Const(I32Lit(handle)), CallIndirect(SigDD)]);
    }
  }

  /**
   * Function visit_end: exactly one wrap call is added, reserving one more
   * slot, when the result is still in split form and none otherwise; Return
   * is the last instruction; the flag ends true.
   */
  lemma EndFacts(g: Gen)
    ensures End(g).code == g.code + (if g.needsUnwrap then [] else CallCode(FWrap, SigDDI)) + [Return]
    ensures End(g).code[|End(g).code| - 1] == Return
    ensures End(g).arenaSize == g.arenaSize + (if g.needsUnwrap then 0 else 1)
    ensures End(g).needsUnwrap
    ensures Inv(g) ==> Inv(End(g))
  {
    UnwrapFacts(g);
    F64x2Facts(g, FWrap);
    var w := if !g.needsUnwrap then F64x2(g, FWrap) else g;
    if g.needsUnwrap {
      assert g.code + [] == g.code;
    }
    if Inv(g) {
      EmitPlainKeepsInv(w, [Return]);
    }
  }

  /** The operators the compiler knows. */
  predicate KnownOperator(op: string) {
    op in {"+", "-", "*", "/", "sin", "cos", "tan", "sinh", "cosh", "tanh", "^"}
  }

  /** The operators whose result comes back from a morpheme in pointer form. */
  predicate MorphemeOperator(op: string) {
    op in {"/", "sin", "cos", "tan", "sinh", "cosh", "tanh", "^"}
  }

  /**
   * visit_operator accepts exactly the known operators. + - * are generated
   * inline and leave split form; / and ^ go through the f64x4 table, the six
   * trigonometric and hyperbolic names through the f64x2 table, each
   * reserving one arena slot and leaving pointer form.
   */
  lemma OperatorFacts(g: Gen, op: string)
    ensures Operator(g, op).Some? <==> KnownOperator(op)
    ensures op == "+" ==> Operator(g, op) == Some(AddOp(g))
    ensures op == "-" ==> Operator(g, op) == Some(SubOp(g))
    ensures op == "*" ==> Operator(g, op) == Some(MulOp(g))
    ensures op == "/" ==> Operator(g, op) == Some(F64x4(g, FDiv))
    ensures op == "^" ==> Operator(g, op) == Some(F64x4(g, FExp))
    ensures op == "sinh" ==> Operator(g, op) == Some(F64x2(g, FSinh))
    ensures Operator(g, op).Some? ==>
      && Operator(g, op).value.needsUnwrap == MorphemeOperator(op)
      && Operator(g, op).value.arenaSize == g.arenaSize + (if MorphemeOperator(op) then 1 else 0)
      && (Inv(g) ==> Inv(Operator(g, op).value))
  {
    AddSubFacts(g);
    MulFacts(g);
    F64x4Facts(g, FDiv);
    F64x4Facts(g, FExp);
    if UnaryMorpheme(op).Some? {
      F64x2Facts(g, UnaryMorpheme(op).value);
    }
  }

  /** Whether compile() stops at this token, judged from the token, the parameter name and the function table alone. */
  predicate BadToken(tok: Token, table: map<string, nat>, param: string, parse: string -> Option<Cx>) {
    if tok.ttype == NUMBER then parse(tok.value).None?
    else if tok.ttype == IDENTIFIER then tok.value != param && tok.value !in ConstsDp()
    else if tok.ttype == OPERATOR then !KnownOperator(tok.value)
    else if tok.ttype == FXNCALL then tok.value !in table || table[tok.value] == 0
    else true
  }

  /** The error a bad token stops compile() with. */
  function TokenError(tok: Token): CompileError {
    if tok.ttype == NUMBER then MalformedNumber(tok.value)
    else if tok.ttype == IDENTIFIER then UnknownIdentifier(tok.value)
    else if tok.ttype == OPERATOR then UnknownOperator(tok.value)
    else if tok.ttype == FXNCALL then UnknownFunction(tok.value)
    else UnknownTokenType(tok.ttype)
  }

  /** Whether the token makes a morpheme call of its own. */
  predicate IsMorphemeToken(tok: Token) {
    tok.ttype == OPERATOR && MorphemeOperator(tok.value)
  }

  /** The number of tokens that call a morpheme. */
  function MorphemeCount(tokens: seq<Token>): nat
    decreases |tokens|
  {
    if tokens == [] then 0
    else MorphemeCount(tokens[..|tokens| - 1]) + (if IsMorphemeToken(tokens[|tokens| - 1]) then 1 else 0)
  }

  /**
   * Whether the value on top is in pointer form after the tokens: the last
   * token that is not a number decides, since a number literal neither
   * unwraps nor wraps; a morpheme operator or a function call leaves a pointer.
   */
  function EndsInPointer(tokens: seq<Token>): bool
    decreases |tokens|
  {
    if tokens == [] then false
    else
      var last := tokens[|tokens| - 1];
      if last.ttype == NUMBER then EndsInPointer(tokens[..|tokens| - 1])
      else IsMorphemeToken(last) || last.ttype == FXNCALL
  }

  /** One token fails exactly when it is bad, with that token's error, and a good one leaves the table unchanged. */
  lemma TokenAccepts(g: Gen, table: map<string, nat>, tok: Token, param: string, parse: string -> Option<Cx>)
    ensures TokenGen(g, table, tok, param, parse).Ok? <==> !BadToken(tok, table, param, parse)
    ensures TokenGen(g, table, tok, param, parse).Err? ==> TokenGen(g, table, tok, param, parse).error == TokenError(tok)
    ensures TokenGen(g, table, tok, param, parse).Ok? ==> TokenGen(g, table, tok, param, parse).value.1 == table
  {
    if tok.ttype == IDENTIFIER {
      VariableDpFacts(g, tok.value, param);
    } else if tok.ttype == OPERATOR {
      OperatorFacts(g, tok.value);
    }
  }

  /** A good token moves the arena size and the form as the token demands and keeps the invariant. */
  lemma TokenShape(g: Gen, table: map<string, nat>, tok: Token, param: string, parse: string -> Option<Cx>)
    requires TokenGen(g, table, tok, param, parse).Ok?
    ensures
      var r := TokenGen(g, table, tok, param, parse).value.0;
      && r.arenaSize == g.arenaSize + (if IsMorphemeToken(tok) then 1 else 0)
      && r.needsUnwrap == (if tok.ttype == NUMBER then g.needsUnwrap else IsMorphemeToken(tok) || tok.ttype == FXNCALL)
      && (Inv(g) ==> Inv(r))
  {
    if tok.ttype == NUMBER {
      ComplexDpFacts(g, parse(tok.value).value);
    } else if tok.ttype == IDENTIFIER {
      VariableDpFacts(g, tok.value, param);
    } else if tok.ttype == OPERATOR {
      OperatorFacts(g, tok.value);
    } else {
      var t := SubscriptEntries(table, tok.value);
      FxncallFacts(g, t[tok.value]);
    }
  }

  /**
   * compile() over a whole stream, on success: the function table is
   * unchanged, the invariant holds, the arena size is the number of
   * morpheme tokens and the form of the result is as EndsInPointer says.
   */
  lemma {:induction false} CompileShape(tokens: seq<Token>, table: map<string, nat>, param: string, parse: string -> Option<Cx>)
    requires CompileGen(tokens, table, param, parse).Ok?
    ensures
      var (g, t) := CompileGen(tokens, table, param, parse).value;
      t == table && Inv(g) && g.arenaSize == MorphemeCount(tokens) && g.needsUnwrap == EndsInPointer(tokens)
    decreases |tokens|
  {
    if tokens == [] {
      FreshInv();
    } else {
      var n := |tokens| - 1;
      CompileShape(tokens[..n], table, param, parse);
      var (g, t) := CompileGen(tokens[..n], table, param, parse).value;
      TokenAccepts(g, t, tokens[n], param, parse);
      TokenShape(g, t, tokens[n], param, parse);
    }
  }

  /** A successful compile() leaves the function table as it found it. */
  lemma {:induction false} CompileKeepsTable(tokens: seq<Token>, table: map<string, nat>, param: string, parse: string -> Option<Cx>)
    requires CompileGen(tokens, table, param, parse).Ok?
    ensures CompileGen(tokens, table, param, parse).value.1 == table
    decreases |tokens|
  {
    if tokens != [] {
      var n := |tokens| - 1;
      CompileKeepsTable(tokens[..n], table, param, parse);
      var (g, t) := CompileGen(tokens[..n], table, param, parse).value;
      TokenAccepts(g, t, tokens[n], param, parse);
    }
  }

  /** compile() succeeds exactly when no token of the stream is bad. */
  lemma {:induction false} CompileAccepts(tokens: seq<Token>, table: map<string, nat>, param: string, parse: string -> Option<Cx>)
    ensures CompileGen(tokens, table, param, parse).Ok? <==>
      forall i :: 0 <= i < |tokens| ==> !BadToken(tokens[i], table, param, parse)
    decreases |tokens|
  {
    if tokens != [] {
      var n := |tokens| - 1;
      var prefix := tokens[..n];
      CompileAccepts(prefix, table, param, parse);
      assert forall i :: 0 <= i < n ==> prefix[i] == tokens[i];
      if CompileGen(prefix, table, param, parse).Ok? {
        CompileKeepsTable(prefix, table, param, parse);
        var (g, t) := CompileGen(prefix, table, param, parse).value;
        TokenAccepts(g, t, tokens[n], param, parse);
      }
    }
  }

  /** A failing compile() stops with the error of the first bad token. */
  lemma {:induction false} CompileFirstError(tokens: seq<Token>, table: map<string, nat>, param: string, parse: string -> Option<Cx>)
    requires CompileGen(tokens, table, param, parse).Err?
    ensures exists i :: (0 <= i < |tokens| && BadToken(tokens[i], table, param, parse)
      && (forall j :: 0 <= j < i ==> !BadToken(tokens[j], table, param, parse))
      && CompileGen(tokens, table, param, parse).error == TokenError(tokens[i]))
    decreases |tokens|
  {
    var n := |tokens| - 1;
    var prefix := tokens[..n];
    assert forall i :: 0 <= i < n ==> prefix[i] == tokens[i];
    if CompileGen(prefix, table, param, parse).Err? {
      CompileFirstError(prefix, table, param, parse);
      var i :| 0 <= i < n && BadToken(prefix[i], table, param, parse)
        && (forall j :: 0 <= j < i ==> !BadToken(prefix[j], table, param, parse))
        && CompileGen(prefix, table, param, parse).error == TokenError(prefix[i]);
      assert BadToken(tokens[i], table, param, parse);
    } else {
      CompileAccepts(prefix, table, param, parse);
      CompileKeepsTable(prefix, table, param, parse);
      var (g, t) := CompileGen(prefix, table, param, parse).value;
      TokenAccepts(g, t, tokens[n], param, parse);
      assert BadToken(tokens[n], table, param, parse);
    }
  }

  /**
   * The reference meaning of one token of a stream that uses only the
   * operations the compiler generates inline (numbers, the parameter, the
   * constants and + - *), as a step of postfix evaluation over complex
   * values. None for anything else and for a stack underflow.
   */
  function InlineNext(vals: seq<Cx>, tok: Token, z: Cx, param: string, parse: string -> Option<Cx>): Option<seq<Cx>> {
    var n := |vals|;
    if tok.ttype == NUMBER then
      (match parse(tok.value) case None => None case Some(w) => Some(vals + [w]))
    else if tok.ttype == IDENTIFIER && tok.value == param then Some(vals + [z])
    else if tok.ttype == IDENTIFIER && tok.value in ConstsDp() then Some(vals + [ConstsDp()[tok.value]])
    else if tok.ttype == OPERATOR && tok.value in {"+", "-", "*"} && n >= 2 then
      var x, y := vals[n - 2], vals[n - 1];
      Some(vals[..n - 2] + [if tok.value == "+" then Add(x, y) else if tok.value == "-" then Sub(x, y) else Mul(x, y)])
    else None
  }

  /** Postfix evaluation of a whole inline stream from an empty stack. */
  function EvalInline(tokens: seq<Token>, z: Cx, param: string, parse: string -> Option<Cx>): Option<seq<Cx>>
    decreases |tokens|
  {
    if tokens == [] then Some([])
    else
      match EvalInline(tokens[..|tokens| - 1], z, param, parse)
      case None => None
      case Some(vals) => InlineNext(vals, tokens[|tokens| - 1], z, param, parse)
  }

  /** A stack of complex values in split form: real part below imaginary part, bottom first. */
  function Flatten(vals: seq<Cx>): seq<Val>
    decreases |vals|
  {
    if vals == [] then [] else Flatten(vals[..|vals| - 1]) + [F(vals[|vals| - 1].re), F(vals[|vals| - 1].im)]
  }

  /** The entry point's initial state: an empty stack and z in locals 0 and 1. */
  function Entry(z: Cx): State {
    State([], map[0 := F(z.re), 1 := F(z.im)])
  }

  /** Running the code so far has produced the values in split form, and the parameters are still in locals 0 and 1. */
  predicate Computes(g: Gen, vals: seq<Cx>, z: Cx, mem: int -> real) {
    var r := Exec(g.code, Entry(z), mem);
    && r.Some?
    && r.value.stack == Flatten(vals)
    && 0 in r.value.locals && r.value.locals[0] == F(z.re)
    && 1 in r.value.locals && r.value.locals[1] == F(z.im)
  }

  lemma FlattenPush(vals: seq<Cx>, w: Cx)
    ensures Flatten(vals + [w]) == Flatten(vals) + [F(w.re), F(w.im)]
  {
    assert (vals + [w])[..|vals|] == vals;
  }

  /** Flattening the top two values. */
  lemma FlattenTopTwo(vals: seq<Cx>)
    requires |vals| >= 2
    ensures Flatten(vals) == Flatten(vals[..|vals| - 2])
      + [F(vals[|vals| - 2].re), F(vals[|vals| - 2].im), F(vals[|vals| - 1].re), F(vals[|vals| - 1].im)]
  {
    var n := |vals|;
    assert vals[..n - 1][..n - 2] == vals[..n - 2];
  }

  /** Pushing two f64 values, from constants or from the parameter locals. */
  lemma PushPairSemantics(s: State, snippet: seq<Instr>, w: Cx, mem: int -> real)
    requires snippet == [Const(F64Lit(w.re)), Const(F64Lit(w.im))]
      || (snippet == [LocalGet(0), LocalGet(1)] && 0 in s.locals && s.locals[0] == F(w.re) && 1 in s.locals && s.locals[1] == F(w.im))
    ensures Exec(snippet, s, mem) == Some(s.(stack := s.stack + [F(w.re), F(w.im)]))
  {
    var states := [s, s.(stack := s.stack + [F(w.re)]), s.(stack := s.stack + [F(w.re)] + [F(w.im)])];
    assert s.stack + [F(w.re)] + [F(w.im)] == s.stack + [F(w.re), F(w.im)];
    ExecTrace(snippet, states, mem);
  }

  /** A token that pushes a value (a number, the parameter or a constant) extends a correct run. */
  lemma InlinePushStep(g: Gen, vals: seq<Cx>, w: Cx, snippet: seq<Instr>, z: Cx, mem: int -> real)
    requires Computes(g, vals, z, mem)
    requires snippet == [Const(F64Lit(w.re)), Const(F64Lit(w.im))] || (snippet == [LocalGet(0), LocalGet(1)] && w == z)
    ensures Computes(Emit(g, snippet), vals + [w], z, mem)
  {
    var s := Exec(g.code, Entry(z), mem).value;
    ExecAppend(g.code, snippet, Entry(z), mem);
    PushPairSemantics(s, snippet, w, mem);
    FlattenPush(vals, w);
  }

  /** + and - extend a correct run: the top two values are replaced by their sum or difference. */
  lemma InlineSplatStep(g: Gen, vals: seq<Cx>, op: BinOp, z: Cx, mem: int -> real)
    requires Computes(g, vals, z, mem) && |vals| >= 2 && op != MulF64
    ensures Computes(Splat(g, op), vals[..|vals| - 2] + [if op == AddF64 then Add(vals[|vals| - 2], vals[|vals| - 1]) else Sub(vals[|vals| - 2], vals[|vals| - 1])], z, mem)
  {
    var m := |vals|;
    var x, y := vals[m - 2], vals[m - 1];
    var pre := vals[..m - 2];
    var n := NextLocal(g);
    var s := Exec(g.code, Entry(z), mem).value;
    FlattenTopTwo(vals);
    var snippet := SplatCode(op, n, n + 1, n + 2);
    assert Splat(g, op).code == g.code + snippet;
    ExecAppend(g.code, snippet, Entry(z), mem);
    assert s == State(Flatten(pre) + [F(x.re), F(x.im), F(y.re), F(y.im)], s.locals);
    SplatSemantics(Flatten(pre), s.locals, op, x.re, x.im, y.re, y.im, n, n + 1, n + 2, mem);
    var r := if op == AddF64 then Add(x, y) else Sub(x, y);
    assert [F(Apply(op, x.re, y.re)), F(Apply(op, x.im, y.im))] == [F(r.re), F(r.im)];
    FlattenPush(pre, r);
  }

  /** * extends a correct run: the top two values are replaced by their complex product. */
  lemma InlineMulStep(g: Gen, vals: seq<Cx>, z: Cx, mem: int -> real)
    requires Computes(g, vals, z, mem) && |vals| >= 2 && !g.needsUnwrap
    ensures Computes(MulOp(g), vals[..|vals| - 2] + [Mul(vals[|vals| - 2], vals[|vals| - 1])], z, mem)
  {
    var m := |vals|;
    var x, y := vals[m - 2], vals[m - 1];
    var pre := vals[..m - 2];
    var v := NextLocal(g);
    var s := Exec(g.code, Entry(z), mem).value;
    UnwrapFacts(g);
    FlattenTopTwo(vals);
    var snippet := BinaryStoreCode(v) + MulTailCode(v);
    assert MulOp(g).code == g.code + snippet;
    ExecAppend(g.code, snippet, Entry(z), mem);
    assert s == State(Flatten(pre) + [F(x.re), F(x.im), F(y.re), F(y.im)], s.locals);
    MulSemantics(Flatten(pre), s.locals, x.re, x.im, y.re, y.im, v, mem);
    assert Cx(x.re, x.im) == x && Cx(y.re, y.im) == y;
    FlattenPush(pre, Mul(x, y));
  }

  /** One inline token compiles, keeps split form and extends a correct run to a correct run. */
  lemma InlineStep(g: Gen, vals: seq<Cx>, tok: Token, table: map<string, nat>, z: Cx, param: string, parse: string -> Option<Cx>, mem: int -> real)
    requires Computes(g, vals, z, mem) && !g.needsUnwrap
    requires InlineNext(vals, tok, z, param, parse).Some?
    ensures TokenGen(g, table, tok, param, parse).Ok?
    ensures !TokenGen(g, table, tok, param, parse).value.0.needsUnwrap
    ensures Computes(TokenGen(g, table, tok, param, parse).value.0, InlineNext(vals, tok, z, param, parse).value, z, mem)
  {
    UnwrapFacts(g);
    if tok.ttype == NUMBER {
      InlinePushStep(g, vals, parse(tok.value).value, [Const(F64Lit(parse(tok.value).value.re)), Const(F64Lit(parse(tok.value).value.im))], z, mem);
    } else if tok.ttype == IDENTIFIER && tok.value == param {
      InlinePushStep(g, vals, z, [LocalGet(0), LocalGet(1)], z, mem);
    } else if tok.ttype == IDENTIFIER {
      var w := ConstsDp()[tok.value];
      InlinePushStep(g, vals, w, [Const(F64Lit(w.re)), Const(F64Lit(w.im))], z, mem);
    } else if tok.value == "+" {
      InlineSplatStep(g, vals, AddF64, z, mem);
    } else if tok.value == "-" {
      InlineSplatStep(g, vals, SubF64, z, mem);
    } else {
      InlineMulStep(g, vals, z, mem);
    }
  }

  /**
   * The inline fragment is compiled correctly: for a stream of numbers, the
   * parameter, the constants and + - * that evaluates as postfix, compile()
   * succeeds, the result stays in split form, and running the emitted code
   * from the entry state (z in locals 0 and 1) leaves exactly the evaluated
   * values on the stack, in split form.
   */
  lemma {:induction false} InlineCorrect(tokens: seq<Token>, table: map<string, nat>, z: Cx, param: string, parse: string -> Option<Cx>, mem: int -> real)
    requires EvalInline(tokens, z, param, parse).Some?
    ensures CompileGen(tokens, table, param, parse).Ok?
    ensures !CompileGen(tokens, table, param, parse).value.0.needsUnwrap
    ensures Computes(CompileGen(tokens, table, param, parse).value.0, EvalInline(tokens, z, param, parse).value, z, mem)
    decreases |tokens|
  {
    if tokens == [] {
      assert Exec([], Entry(z), mem) == Some(Entry(z));
    } else {
      var n := |tokens| - 1;
      InlineCorrect(tokens[..n], table, z, param, parse, mem);
      var (g, t) := CompileGen(tokens[..n], table, param, parse).value;
      InlineStep(g, EvalInline(tokens[..n], z, param, parse).value, tokens[n], t, z, param, parse, mem);
    }
  }
}
