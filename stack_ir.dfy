/**
 * An abstract stack IR standing for the WebAssembly stack instructions the
 * compiler emits, with a small-step semantics for the straight-line
 * arithmetic part (constants, locals, loads and f64 binary operators).
 * Memory is a function from byte addresses to the f64 stored there.
 */
module StackIR {
  import opened Wrappers
  import opened Complex
  import opened Morphemes

  /** Value types of the stack and of locals. */
  datatype VType = F64 | I32

  /** Literals: f64 and i32 numbers, and the addresses of morphemes and of multiprecision constants. */
  datatype Lit =
    | F64Lit(x: real)
    | I32Lit(n: int)
    | RoutinePtr(routine: Routine)
    | ConstPtr(constName: string)

  datatype BinOp = AddF64 | SubF64 | MulF64

  /** call_indirect signatures, named after their parameter types; every one returns i32. */
  datatype Sig = SigII | SigIII | SigDDI | SigDDDDI | SigDD

  datatype Instr =
    | Const(lit: Lit)
    | LocalGet(index: nat)
    | LocalSet(index: nat)
    /** a local.set that keeps its operand on the stack (binaryen: a LocalSet whose type is set) */
    | LocalTee(index: nat)
    /** f64 load from the address on top of the stack plus offset */
    | Load(offset: nat)
    | Binary(op: BinOp)
    | GlobalGet(global: string)
    | CallIndirect(sig: Sig)
    | Return

  datatype Val = F(r: real) | I(n: int)

  datatype State = State(stack: seq<Val>, locals: map<nat, Val>)

  function Apply(op: BinOp, a: real, b: real): real {
    match op
    case AddF64 => a + b
    case SubF64 => a - b
    case MulF64 => a * b
  }

  /**
   * One instruction. Calls, global reads, pointer literals and return are
   * outside this semantics and yield None, as does any ill-typed step.
   */
  function Step(s: State, ins: Instr, mem: int -> real): Option<State> {
    match ins
    case Const(F64Lit(x)) => Some(s.(stack := s.stack + [F(x)]))
    case Const(I32Lit(n)) => Some(s.(stack := s.stack + [I(n)]))
    case LocalGet(k) =>
      if k in s.locals then Some(s.(stack := s.stack + [s.locals[k]])) else None
    case LocalSet(k) =>
      if |s.stack| > 0 then Some(State(s.stack[..|s.stack| - 1], s.locals[k := s.stack[|s.stack| - 1]])) else None
    case LocalTee(k) =>
      if |s.stack| > 0 then Some(s.(locals := s.locals[k := s.stack[|s.stack| - 1]])) else None
    case Load(off) =>
      if |s.stack| > 0 && s.stack[|s.stack| - 1].I? then
        Some(s.(stack := s.stack[..|s.stack| - 1] + [F(mem(s.stack[|s.stack| - 1].n + off))]))
      else None
    case Binary(op) =>
      if |s.stack| >= 2 && s.stack[|s.stack| - 2].F? && s.stack[|s.stack| - 1].F? then
        Some(s.(stack := s.stack[..|s.stack| - 2] + [F(Apply(op, s.stack[|s.stack| - 2].r, s.stack[|s.stack| - 1].r))]))
      else None
    case _ => None
  }

  function Exec(code: seq<Instr>, s: State, mem: int -> real): Option<State>
    decreases |code|
  {
    if code == [] then Some(s)
    else
      match Step(s, code[0], mem)
      case None => None
      case Some(s') => Exec(code[1..], s', mem)
  }

  /** Running a concatenation runs the first part and then the second from where the first stopped. */
  lemma {:induction false} ExecAppend(a: seq<Instr>, b: seq<Instr>, s: State, mem: int -> real)
    ensures Exec(a + b, s, mem) == (match Exec(a, s, mem) case None => None case Some(s') => Exec(b, s', mem))
    decreases |a|
  {
    if a == [] {
      assert a + b == b;
    } else {
      assert (a + b)[0] == a[0] && (a + b)[1..] == a[1..] + b;
      match Step(s, a[0], mem)
      case None =>
      case Some(s') =>
        ExecAppend(a[1..], b, s', mem);
    }
  }

  /** A run whose every step goes from one listed state to the next ends in the last listed state. */
  lemma {:induction false} ExecTrace(code: seq<Instr>, states: seq<State>, mem: int -> real)
    requires |states| == |code| + 1
    requires forall i :: 0 <= i < |code| ==> Step(states[i], code[i], mem) == Some(states[i + 1])
    ensures Exec(code, states[0], mem) == Some(states[|code|])
    decreases |code|
  {
    if code != [] {
      ExecTrace(code[1..], states[1..], mem);
    }
  }

  /** Duplicating the pointer on top through local t, then loading the imaginary part (kept in local k) and the real part. */
  function UnwrapCode(t: nat, k: nat): seq<Instr> {
    [LocalTee(t), LocalGet(t), Load(8), LocalSet(k), Load(0), LocalGet(k)]
  }

  /** The split-form binary operator: the four operands go to locals d, c, b (a stays), then a op c and b op d. */
  function SplatCode(op: BinOp, d: nat, c: nat, b: nat): seq<Instr> {
    [LocalSet(d), LocalSet(c), LocalSet(b), LocalGet(c), Binary(op), LocalGet(b), LocalGet(d), Binary(op)]
  }

  /** The four operand stores of visit_binary into locals v..v+3; the last is a tee. */
  function BinaryStoreCode(v: nat): seq<Instr> {
    [LocalSet(v), LocalSet(v + 1), LocalSet(v + 2), LocalTee(v + 3)]
  }

  /** The multiplication emitted after the operand stores. */
  function MulTailCode(v: nat): seq<Instr> {
    [LocalGet(v + 1), Binary(MulF64), LocalGet(v + 2), LocalGet(v), Binary(MulF64), Binary(SubF64),
     LocalGet(v + 3), LocalGet(v), Binary(MulF64), LocalGet(v + 2), LocalGet(v + 1), Binary(MulF64), Binary(AddF64)]
  }

  /** Pushing the morpheme arena and a routine address, then calling it indirectly. */
  function CallCode(routine: Routine, sig: Sig): seq<Instr> {
    [GlobalGet("_arena"), Const(RoutinePtr(routine)), CallIndirect(sig)]
  }

  /**
   * Read as a stack program, the unwrap sequence replaces a pointer p on top
   * of the stack with the f64 at p (real part) below the f64 at p + 8
   * (imaginary part); everything below is untouched.
   */
  lemma UnwrapSemantics(st: seq<Val>, locals: map<nat, Val>, p: int, t: nat, k: nat, mem: int -> real)
    requires t != k
    ensures Exec(UnwrapCode(t, k), State(st + [I(p)], locals), mem)
         == Some(State(st + [F(mem(p)), F(mem(p + 8))], locals[t := I(p)][k := F(mem(p + 8))]))
  {
    var re, im := F(mem(p)), F(mem(p + 8));
    var l1 := locals[t := I(p)];
    var l2 := l1[k := im];
    var code := UnwrapCode(t, k);
    var states := [
      State(st + [I(p)], locals),
      State(st + [I(p)], l1),
      State(st + [I(p)] + [I(p)], l1),
      State(st + [I(p)] + [im], l1),
      State(st + [I(p)], l2),
      State(st + [re], l2),
      State(st + [re] + [im], l2)];
    forall i | 0 <= i < |code|
      ensures Step(states[i], code[i], mem) == Some(states[i + 1])
    {
      if i == 2 {
        assert (st + [I(p)] + [I(p)])[..|st| + 1] == st + [I(p)];
      } else if i == 3 {
        assert (st + [I(p)] + [im])[..|st| + 1] == st + [I(p)];
      } else if i == 4 {
        assert (st + [I(p)])[..|st|] == st;
      }
    }
    ExecTrace(code, states, mem);
    assert st + [re] + [im] == st + [re, im];
  }

  /**
   * visit_binary_splat read as a stack program: with distinct fresh locals,
   * [a, b, c, d] becomes [a op c, b op d].
   */
  lemma SplatSemantics(st: seq<Val>, locals: map<nat, Val>, op: BinOp, a: real, b: real, c: real, d: real, ld: nat, lc: nat, lb: nat, mem: int -> real)
    requires ld != lc && ld != lb && lc != lb
    ensures Exec(SplatCode(op, ld, lc, lb), State(st + [F(a), F(b), F(c), F(d)], locals), mem)
         == Some(State(st + [F(Apply(op, a, c)), F(Apply(op, b, d))], locals[ld := F(d)][lc := F(c)][lb := F(b)]))
  {
    var l1 := locals[ld := F(d)];
    var l2 := l1[lc := F(c)];
    var l3 := l2[lb := F(b)];
    var x, y := F(Apply(op, a, c)), F(Apply(op, b, d));
    var code := SplatCode(op, ld, lc, lb);
    var states := [
      State(st + [F(a), F(b), F(c), F(d)], locals),
      State(st + [F(a), F(b), F(c)], l1),
      State(st + [F(a), F(b)], l2),
      State(st + [F(a)], l3),
      State(st + [F(a)] + [F(c)], l3),
      State(st + [x], l3),
      State(st + [x] + [F(b)], l3),
      State(st + [x] + [F(b)] + [F(d)], l3),
      State(st + [x] + [y], l3)];
    forall i | 0 <= i < |code|
      ensures Step(states[i], code[i], mem) == Some(states[i + 1])
    {
      if i == 0 {
        assert (st + [F(a), F(b), F(c), F(d)])[..|st| + 3] == st + [F(a), F(b), F(c)];
      } else if i == 1 {
        assert (st + [F(a), F(b), F(c)])[..|st| + 2] == st + [F(a), F(b)];
      } else if i == 2 {
        assert (st + [F(a), F(b)])[..|st| + 1] == st + [F(a)];
      } else if i == 4 {
        assert (st + [F(a)] + [F(c)])[..|st|] == st;
      } else if i == 7 {
        assert (st + [x] + [F(b)] + [F(d)])[..|st| + 1] == st + [x];
      }
    }
    ExecTrace(code, states, mem);
    assert st + [x] + [y] == st + [x, y];
  }

  /**
   * visit_mul read as a stack program: the operand stores move d, c, b into
   * v, v+1, v+2 and tee a into v+3, and the tail then turns [a] into
   * [a*c - b*d, a*d + b*c]: the complex product of (a, b) and (c, d) in split form.
   */
  lemma MulSemantics(st: seq<Val>, locals: map<nat, Val>, a: real, b: real, c: real, d: real, v: nat, mem: int -> real)
    ensures Exec(BinaryStoreCode(v) + MulTailCode(v), State(st + [F(a), F(b), F(c), F(d)], locals), mem)
         == Some(State(st + [F(Mul(Cx(a, b), Cx(c, d)).re), F(Mul(Cx(a, b), Cx(c, d)).im)],
                       locals[v := F(d)][v + 1 := F(c)][v + 2 := F(b)][v + 3 := F(a)]))
  {
    var l1 := locals[v := F(d)];
    var l2 := l1[v + 1 := F(c)];
    var l3 := l2[v + 2 := F(b)];
    var l := l3[v + 3 := F(a)];
    var stores := BinaryStoreCode(v);
    var states := [
      State(st + [F(a), F(b), F(c), F(d)], locals),
      State(st + [F(a), F(b), F(c)], l1),
      State(st + [F(a), F(b)], l2),
      State(st + [F(a)], l3),
      State(st + [F(a)], l)];
    forall i | 0 <= i < |stores|
      ensures Step(states[i], stores[i], mem) == Some(states[i + 1])
    {
      if i == 0 {
        assert (st + [F(a), F(b), F(c), F(d)])[..|st| + 3] == st + [F(a), F(b), F(c)];
      } else if i == 1 {
        assert (st + [F(a), F(b), F(c)])[..|st| + 2] == st + [F(a), F(b)];
      } else if i == 2 {
        assert (st + [F(a), F(b)])[..|st| + 1] == st + [F(a)];
      }
    }
    ExecTrace(stores, states, mem);
    MulTailSemantics(st, l, a, b, c, d, v, mem);
    ExecAppend(stores, MulTailCode(v), states[0], mem);
  }

  /** The multiplication tail on its own, given the four operands in their locals. */
  lemma MulTailSemantics(st: seq<Val>, l: map<nat, Val>, a: real, b: real, c: real, d: real, v: nat, mem: int -> real)
    requires v in l && v + 1 in l && v + 2 in l && v + 3 in l
    requires l[v] == F(d) && l[v + 1] == F(c) && l[v + 2] == F(b) && l[v + 3] == F(a)
    ensures Exec(MulTailCode(v), State(st + [F(a)], l), mem)
         == Some(State(st + [F(Mul(Cx(a, b), Cx(c, d)).re), F(Mul(Cx(a, b), Cx(c, d)).im)], l))
  {
    var code := MulTailCode(v);
    var re, im := F(a * c - b * d), F(a * d + b * c);
    MulRealPart(st, l, a, b, c, d, v, mem);
    MulImagPart(st + [re], l, a, b, c, d, v, mem);
    assert code == code[..6] + code[6..];
    ExecAppend(code[..6], code[6..], State(st + [F(a)], l), mem);
    assert st + [re] + [im] == st + [re, im];
    assert Mul(Cx(a, b), Cx(c, d)) == Cx(a * c - b * d, a * d + b * c);
  }

  /** The first six instructions of the tail leave a*c - b*d in place of a. */
  lemma MulRealPart(st: seq<Val>, l: map<nat, Val>, a: real, b: real, c: real, d: real, v: nat, mem: int -> real)
    requires v in l && v + 1 in l && v + 2 in l
    requires l[v] == F(d) && l[v + 1] == F(c) && l[v + 2] == F(b)
    ensures Exec(MulTailCode(v)[..6], State(st + [F(a)], l), mem) == Some(State(st + [F(a * c - b * d)], l))
  {
    var code := MulTailCode(v)[..6];
    var ac, bd := F(a * c), F(b * d);
    var stacks := [
      st + [F(a)],
      st + [F(a)] + [F(c)],
      st + [ac],
      st + [ac] + [F(b)],
      st + [ac] + [F(b)] + [F(d)],
      st + [ac] + [bd],
      st + [F(a * c - b * d)]];
    var states := seq(|stacks|, j requires 0 <= j < |stacks| => State(stacks[j], l));
    forall i | 0 <= i < |code|
      ensures Step(states[i], code[i], mem) == Some(states[i + 1])
    {
      if i == 1 {
        BinaryStep(st, a, c, MulF64, l, mem);
      } else if i == 4 {
        BinaryStep(st + [ac], b, d, MulF64, l, mem);
      } else if i == 5 {
        BinaryStep(st, a * c, b * d, SubF64, l, mem);
      }
    }
    ExecTrace(code, states, mem);
  }

  /** The last seven instructions of the tail push a*d + b*c. */
  lemma MulImagPart(st: seq<Val>, l: map<nat, Val>, a: real, b: real, c: real, d: real, v: nat, mem: int -> real)
    requires v in l && v + 1 in l && v + 2 in l && v + 3 in l
    requires l[v] == F(d) && l[v + 1] == F(c) && l[v + 2] == F(b) && l[v + 3] == F(a)
    ensures Exec(MulTailCode(v)[6..], State(st, l), mem) == Some(State(st + [F(a * d + b * c)], l))
  {
    var code := MulTailCode(v)[6..];
    var ad, bc := F(a * d), F(b * c);
    var stacks := [
      st,
      st + [F(a)],
      st + [F(a)] + [F(d)],
      st + [ad],
      st + [ad] + [F(b)],
      st + [ad] + [F(b)] + [F(c)],
      st + [ad] + [bc],
      st + [F(a * d + b * c)]];
    var states := seq(|stacks|, j requires 0 <= j < |stacks| => State(stacks[j], l));
    forall i | 0 <= i < |code|
      ensures Step(states[i], code[i], mem) == Some(states[i + 1])
    {
      if i == 2 {
        BinaryStep(st, a, d, MulF64, l, mem);
      } else if i == 5 {
        BinaryStep(st + [ad], b, c, MulF64, l, mem);
      } else if i == 6 {
        BinaryStep(st, a * d, b * c, AddF64, l, mem);
      }
    }
    ExecTrace(code, states, mem);
  }

  /** A binary operator pops two f64 operands and pushes the result. */
  lemma BinaryStep(pre: seq<Val>, x: real, y: real, op: BinOp, l: map<nat, Val>, mem: int -> real)
    ensures Step(State(pre + [F(x)] + [F(y)], l), Binary(op), mem) == Some(State(pre + [F(Apply(op, x, y))], l))
  {
    assert (pre + [F(x)] + [F(y)])[..|pre|] == pre;
  }
}
