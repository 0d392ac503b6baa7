/**
 * The compiler's visitors as objects. A module visitor owns the module's
 * imports and exports and its function visitors; a function visitor
 * accumulates one function's instructions and bookkeeping; math_compiler_dp
 * drives them over a postfix token stream. Every visit is proved to have
 * exactly the effect the CodeGen function of the same name describes.
 */
module MathCompiler {
  import opened Wrappers
  import opened Complex
  import opened Morphemes
  import opened StackIR
  import opened Globals
  import opened Arena
  import opened Fxn
  import opened CodeGen

  datatype Import =
    | MemoryImport
    | TableImport
    | FunctionImport(internalName: string, externalName: string, sig: Sig)
    | GlobalImport(globalName: string)

  datatype Export = Export(outerName: string, innerName: string)

  /** The bitwise OR of a sequence of flag words. */
  function OrFlags(fs: seq<bv32>): bv32
    decreases |fs|
  {
    if fs == [] then 0 else OrFlags(fs[..|fs| - 1]) | fs[|fs| - 1]
  }

  function SumSizes(ns: seq<nat>): nat
    decreases |ns|
  {
    if ns == [] then 0 else SumSizes(ns[..|ns| - 1]) + ns[|ns| - 1]
  }

  /** Whether a flag word has any bit of the mask set. */
  predicate HasBit(x: bv32, bit: bv32) {
    x & bit != 0
  }

  /** The flags that record a kind of arena routine call. */
  predicate CallFlag(bit: bv32) {
    bit == USES_MPCX1 || bit == USES_MPCX2 || bit == USES_F64X2 || bit == USES_F64X4
  }

  lemma OrFlagsSnoc(fs: seq<bv32>, i: nat)
    requires i < |fs|
    ensures OrFlags(fs[..i + 1]) == OrFlags(fs[..i]) | fs[i]
  {
    assert fs[..i + 1][..i] == fs[..i];
  }

  lemma SumSizesSnoc(ns: seq<nat>, i: nat)
    requires i < |ns|
    ensures SumSizes(ns[..i + 1]) == SumSizes(ns[..i]) + ns[i]
  {
    assert ns[..i + 1][..i] == ns[..i];
  }

  /** A bit of (a | b) is set exactly when it is set in a or in b. */
  lemma OrBit(a: bv32, b: bv32, bit: bv32)
    requires CallFlag(bit)
    ensures HasBit(a | b, bit) <==> HasBit(a, bit) || HasBit(b, bit)
  {
    if bit == USES_MPCX1 {
    } else if bit == USES_MPCX2 {
    } else if bit == USES_F64X2 {
    } else {
    }
  }

  /** A bit is set in the OR of the words exactly when it is set in one of them. */
  lemma {:induction false} OrFlagsBit(fs: seq<bv32>, bit: bv32)
    requires CallFlag(bit)
    ensures HasBit(OrFlags(fs), bit) <==> exists i :: 0 <= i < |fs| && HasBit(fs[i], bit)
    decreases |fs|
  {
    if fs != [] {
      var n := |fs| - 1;
      var pre := fs[..n];
      var x, y := OrFlags(pre), fs[n];
      assert OrFlags(fs) == x | y;
      OrFlagsBit(pre, bit);
      OrBit(x, y, bit);
      if HasBit(x, bit) {
        var i :| 0 <= i < |pre| && HasBit(pre[i], bit);
        assert fs[i] == pre[i];
      } else if !HasBit(y, bit) {
        forall i | 0 <= i < |fs| ensures !HasBit(fs[i], bit) {
          if i < n { assert fs[i] == pre[i]; }
        }
      }
    }
  }

  /** The imports module visit_end declares, given which kinds of call the code makes. */
  function ImportsFor(mpcx1: bool, mpcx2: bool, f64x2: bool, f64x4: bool): seq<Import> {
    (if mpcx1 then [FunctionImport("_operator_nop1", "_operator_nop1", SigII)] else [])
    + (if mpcx2 then [FunctionImport("_operator_nop2", "_operator_nop2", SigIII)] else [])
    + (if f64x2 then [FunctionImport("_operator_nop2d", "_operator_nop2", SigDDI)] else [])
    + (if f64x4 then [FunctionImport("_operator_nop4", "_operator_nop4", SigDDDDI)] else [])
    + (if mpcx1 || mpcx2 || f64x2 || f64x4 then [GlobalImport("_arena")] else [])
  }

  /** The imports module visit_end declares for the combined flags. */
  function FakeImports(f: bv32): seq<Import> {
    ImportsFor(f & USES_MPCX1 != 0, f & USES_MPCX2 != 0, f & USES_F64X2 != 0, f & USES_F64X4 != 0)
  }

  /** The arena mask of visit_end tests the four call flags at once. */
  lemma ArenaMask(f: bv32)
    ensures f & (USES_F64X2 | USES_F64X4 | USES_MPCX1 | USES_MPCX2) != 0 <==>
      (f & USES_MPCX1 != 0 || f & USES_MPCX2 != 0 || f & USES_F64X2 != 0 || f & USES_F64X4 != 0)
  {
  }

  /** Appending the five conditional pieces one after another builds ImportsFor. */
  lemma ImportsForSplit(i0: seq<Import>, i1: seq<Import>, i2: seq<Import>, i3: seq<Import>, i4: seq<Import>, i5: seq<Import>,
                        m1: bool, m2: bool, d2: bool, d4: bool)
    requires i1 == i0 + (if m1 then [FunctionImport("_operator_nop1", "_operator_nop1", SigII)] else [])
    requires i2 == i1 + (if m2 then [FunctionImport("_operator_nop2", "_operator_nop2", SigIII)] else [])
    requires i3 == i2 + (if d2 then [FunctionImport("_operator_nop2d", "_operator_nop2", SigDDI)] else [])
    requires i4 == i3 + (if d4 then [FunctionImport("_operator_nop4", "_operator_nop4", SigDDDDI)] else [])
    requires i5 == i4 + (if m1 || m2 || d2 || d4 then [GlobalImport("_arena")] else [])
    ensures i5 == i0 + ImportsFor(m1, m2, d2, d4)
  {
  }

  /** Whether the imports declare a function of this signature. */
  predicate DeclaresSig(imports: seq<Import>, sig: Sig) {
    exists imp :: imp in imports && imp.FunctionImport? && imp.sig == sig
  }

  lemma ImportsForDeclares(mpcx1: bool, mpcx2: bool, f64x2: bool, f64x4: bool)
    ensures DeclaresSig(ImportsFor(mpcx1, mpcx2, f64x2, f64x4), SigII) <==> mpcx1
    ensures DeclaresSig(ImportsFor(mpcx1, mpcx2, f64x2, f64x4), SigIII) <==> mpcx2
    ensures DeclaresSig(ImportsFor(mpcx1, mpcx2, f64x2, f64x4), SigDDI) <==> f64x2
    ensures DeclaresSig(ImportsFor(mpcx1, mpcx2, f64x2, f64x4), SigDDDDI) <==> f64x4
    ensures !DeclaresSig(ImportsFor(mpcx1, mpcx2, f64x2, f64x4), SigDD)
  {
    var p1 := if mpcx1 then [FunctionImport("_operator_nop1", "_operator_nop1", SigII)] else [];
    var p2 := if mpcx2 then [FunctionImport("_operator_nop2", "_operator_nop2", SigIII)] else [];
    var p3 := if f64x2 then [FunctionImport("_operator_nop2d", "_operator_nop2", SigDDI)] else [];
    var p4 := if f64x4 then [FunctionImport("_operator_nop4", "_operator_nop4", SigDDDDI)] else [];
    var p5 := if mpcx1 || mpcx2 || f64x2 || f64x4 then [GlobalImport("_arena")] else [];
    assert ImportsFor(mpcx1, mpcx2, f64x2, f64x4) == (((p1 + p2) + p3) + p4) + p5;
    forall sig
      ensures DeclaresSig(ImportsFor(mpcx1, mpcx2, f64x2, f64x4), sig) <==>
        (mpcx1 && sig == SigII) || (mpcx2 && sig == SigIII) || (f64x2 && sig == SigDDI) || (f64x4 && sig == SigDDDDI)
    {
      DeclaresSigAppend(p1, p2, sig);
      DeclaresSigAppend(p1 + p2, p3, sig);
      DeclaresSigAppend(p1 + p2 + p3, p4, sig);
      DeclaresSigAppend(p1 + p2 + p3 + p4, p5, sig);
      DeclaresSigPiece(p1, sig);
      DeclaresSigPiece(p2, sig);
      DeclaresSigPiece(p3, sig);
      DeclaresSigPiece(p4, sig);
      DeclaresSigPiece(p5, sig);
    }
  }

  lemma DeclaresSigAppend(a: seq<Import>, b: seq<Import>, sig: Sig)
    ensures DeclaresSig(a + b, sig) <==> DeclaresSig(a, sig) || DeclaresSig(b, sig)
  {
    if DeclaresSig(a + b, sig) {
      var imp :| imp in a + b && imp.FunctionImport? && imp.sig == sig;
      assert imp in a || imp in b;
    }
    if DeclaresSig(a, sig) {
      var imp :| imp in a && imp.FunctionImport? && imp.sig == sig;
      assert imp in a + b;
    }
    if DeclaresSig(b, sig) {
      var imp :| imp in b && imp.FunctionImport? && imp.sig == sig;
      assert imp in a + b;
    }
  }

  lemma DeclaresSigPiece(p: seq<Import>, sig: Sig)
    requires |p| <= 1
    ensures DeclaresSig(p, sig) <==> |p| == 1 && p[0].FunctionImport? && p[0].sig == sig
  {
    if |p| == 1 && p[0].FunctionImport? && p[0].sig == sig {
      assert p[0] in p;
    }
  }

  /** The arena global is imported exactly when some arena routine is called. */
  lemma ImportsForArena(mpcx1: bool, mpcx2: bool, f64x2: bool, f64x4: bool)
    ensures GlobalImport("_arena") in ImportsFor(mpcx1, mpcx2, f64x2, f64x4) <==> mpcx1 || mpcx2 || f64x2 || f64x4
  {
  }

  /**
   * Each fake import is declared exactly when its own flag is set, and the
   * arena global exactly when one of the four call flags is.
   */
  lemma FakeImportsFollowFlags(f: bv32)
    ensures DeclaresSig(FakeImports(f), SigII) <==> f & USES_MPCX1 != 0
    ensures DeclaresSig(FakeImports(f), SigIII) <==> f & USES_MPCX2 != 0
    ensures DeclaresSig(FakeImports(f), SigDDI) <==> f & USES_F64X2 != 0
    ensures DeclaresSig(FakeImports(f), SigDDDDI) <==> f & USES_F64X4 != 0
    ensures !DeclaresSig(FakeImports(f), SigDD)
    ensures GlobalImport("_arena") in FakeImports(f) <==>
      (f & USES_MPCX1 != 0 || f & USES_MPCX2 != 0 || f & USES_F64X2 != 0 || f & USES_F64X4 != 0)
  {
    ImportsForDeclares(f & USES_MPCX1 != 0, f & USES_MPCX2 != 0, f & USES_F64X2 != 0, f & USES_F64X4 != 0);
    ImportsForArena(f & USES_MPCX1 != 0, f & USES_MPCX2 != 0, f & USES_F64X2 != 0, f & USES_F64X4 != 0);
  }

  /**
   * For a module with one function, as compile() builds, the imports that
   * visit_end declares are exactly the ones the function's code needs: a
   * function import for every kind of arena routine it calls and the arena
   * global exactly when it reads it.
   */
  lemma ImportsMatchCode(g: Gen)
    requires Inv(g)
    ensures forall sig :: sig != SigDD ==> (DeclaresSig(FakeImports(OrFlags([g.flags])), sig) <==> CallIndirect(sig) in g.code)
    ensures GlobalImport("_arena") in FakeImports(OrFlags([g.flags])) <==> GlobalGet("_arena") in g.code
  {
    assert OrFlags([g.flags]) == g.flags by {
      assert [g.flags][..0] == [];
    }
    FakeImportsFollowFlags(g.flags);
  }

  /**
   * What a successful compile() produces, before it is installed: the
   * arena has one slot per morpheme token plus one for the final wrap when
   * the result is left in split form, the bookkeeping invariant holds, and
   * the module declares exactly the imports the function's code uses.
   */
  lemma CompiledFunction(tokens: seq<Token>, table: map<string, nat>, param: string, parse: string -> Option<Cx>)
    requires CompileGen(tokens, table, param, parse).Ok?
    ensures
      var g := End(CompileGen(tokens, table, param, parse).value.0);
      && g.arenaSize == MorphemeCount(tokens) + (if EndsInPointer(tokens) then 0 else 1)
      && Inv(g)
      && g.code[|g.code| - 1] == Return
      && (forall sig :: sig != SigDD ==> (DeclaresSig(FakeImports(OrFlags([g.flags])), sig) <==> CallIndirect(sig) in g.code))
      && (GlobalImport("_arena") in FakeImports(OrFlags([g.flags])) <==> GlobalGet("_arena") in g.code)
  {
    var g0 := CompileGen(tokens, table, param, parse).value.0;
    CompileShape(tokens, table, param, parse);
    EndFacts(g0);
    ImportsMatchCode(End(g0));
  }

  /** std::to_string of a natural number. */
  function Decimal(n: nat): (s: string)
    ensures |s| >= 1 && forall c :: c in s ==> '0' <= c <= '9'
  {
    var digit := ['0' + (n % 10) as char];
    if n < 10 then digit else Decimal(n / 10) + digit
  }

  /** A function added to the module: its name, its added locals and its body. */
  datatype FunctionDef = FunctionDef(name: string, locals: seq<VType>, body: seq<Instr>)

  /** Once a stream prefix fails, compile() fails with that error whatever follows. */
  lemma {:induction false} CompileErrSticks(tokens: seq<Token>, k: nat, table: map<string, nat>, param: string, parse: string -> Option<Cx>)
    requires k <= |tokens|
    requires CompileGen(tokens[..k], table, param, parse).Err?
    ensures CompileGen(tokens, table, param, parse) == CompileGen(tokens[..k], table, param, parse)
    decreases |tokens| - k
  {
    if k < |tokens| {
      var next := tokens[..k + 1];
      assert next[..k] == tokens[..k];
      assert CompileGen(next, table, param, parse) == CompileGen(tokens[..k], table, param, parse);
      CompileErrSticks(tokens, k + 1, table, param, parse);
    } else {
      assert tokens[..k] == tokens;
    }
  }

  ghost function FlagsOf(cs: seq<FunctionVisitor>): (fs: seq<bv32>)
    reads set c | c in cs
    ensures |fs| == |cs| && forall i :: 0 <= i < |cs| ==> fs[i] == cs[i].flags
  {
    if cs == [] then [] else [cs[0].flags] + FlagsOf(cs[1..])
  }

  ghost function SizesOf(cs: seq<FunctionVisitor>): (ns: seq<nat>)
    reads set c | c in cs
    ensures |ns| == |cs| && forall i :: 0 <= i < |cs| ==> ns[i] == cs[i].arenaSize
  {
    if cs == [] then [] else [cs[0].arenaSize] + SizesOf(cs[1..])
  }

  /**
   * module_visitor: owns the module being built (its imports, exports and
   * functions), the function visitors it created and the entry point name.
   */
  class ModuleVisitor {
    const fxnName: string
    const parameterName: string
    /** whether visit_module has created the module */
    var hasModule: bool
    var imports: seq<Import>
    var exports: seq<Export>
    var functions: seq<FunctionDef>
    var children: seq<FunctionVisitor>
    var entryPoint: string
    /** whether the module and the function visitors have been freed (visit_end or abort) */
    var disposed: bool

    constructor (fxnName: string, parameterName: string)
      ensures this.fxnName == fxnName && this.parameterName == parameterName
      ensures !hasModule && !disposed && entryPoint == ""
      ensures imports == [] && exports == [] && functions == [] && children == []
    {
      this.fxnName := fxnName;
      this.parameterName := parameterName;
      hasModule := false;
      imports := [];
      exports := [];
      functions := [];
      children := [];
      entryPoint := "";
      disposed := false;
    }

    /** visit_module: create the module and import the host's memory and table. */
    method VisitModule()
      modifies this`hasModule, this`imports
      ensures hasModule && imports == old(imports) + [MemoryImport, TableImport]
    {
      hasModule := true;
      imports := imports + [MemoryImport, TableImport];
    }

    /** visit_export */
    method VisitExport(innerName: string, outerName: string)
      modifies this`exports
      ensures exports == old(exports) + [Export(outerName, innerName)]
    {
      exports := exports + [Export(outerName, innerName)];
    }

    /** visit_function: a fresh function visitor, recorded among the children. */
    method VisitFunction(name: string) returns (fv: FunctionVisitor)
      modifies this`children
      ensures fresh(fv) && fv.parent == this && fv.name == name && fv.Snapshot() == Fresh
      ensures children == old(children) + [fv]
    {
      fv := new FunctionVisitor(this, name);
      children := children + [fv];
    }

    /** The children's flag words, in order. */
    ghost function ChildFlags(): seq<bv32>
      reads this`children, set c | c in children
    {
      FlagsOf(children)
    }

    /** The children's arena sizes, in order. */
    ghost function ChildSizes(): seq<nat>
      reads this`children, set c | c in children
    {
      SizesOf(children)
    }

    /**
     * visit_end: combine the children's flags and arena sizes, declare the
     * imports the flags call for, build the compiled function from the
     * serialised module (moduleBytes) with an arena of the combined size,
     * free the module and the children, and install the function under
     * handle h with disassembly text.
     */
    method VisitEnd(moduleBytes: seq<bv8>, h: nat, text: string, table: FxnTable) returns (f: CompiledFxn)
      requires hasModule && !disposed
      modifies this`imports, this`disposed, table
      ensures imports == old(imports) + FakeImports(OrFlags(old(ChildFlags())))
      ensures disposed
      ensures fresh(f) && fresh(f.arena) && f.Valid() && !f.released
      ensures f.name == entryPoint && f.fxnName == fxnName && f.parameterName == parameterName
      ensures f.arena.slots.Length == SumSizes(old(ChildSizes())) && f.arena.index == 0
      ensures f.handle == h && f.Ready() == (h != 0) && f.disassembly == text
      ensures table.entries == old(table.entries)[fxnName := h]
    {
      var globalFlags, totalArenaSize := CombineChildren();
      DeclareFakeImports(globalFlags);
      f := new CompiledFxn(entryPoint, fxnName, parameterName, moduleBytes, totalArenaSize);
      disposed := true;
      f.Install(h, text, table);
    }

    /** The combined flags and the total arena size of the children. */
    method CombineChildren() returns (globalFlags: bv32, totalArenaSize: nat)
      ensures globalFlags == OrFlags(ChildFlags()) && totalArenaSize == SumSizes(ChildSizes())
    {
      ghost var fs, ns := ChildFlags(), ChildSizes();
      globalFlags, totalArenaSize := 0, 0;
      for i := 0 to |children|
        invariant globalFlags == OrFlags(fs[..i])
        invariant totalArenaSize == SumSizes(ns[..i])
      {
        OrFlagsSnoc(fs, i);
        SumSizesSnoc(ns, i);
        globalFlags := globalFlags | children[i].flags;
        totalArenaSize := totalArenaSize + children[i].arenaSize;
      }
      assert fs[..|children|] == fs;
      assert ns[..|children|] == ns;
    }

    /** The fake function imports and the arena global that visit_end declares for the combined flags. */
    method DeclareFakeImports(globalFlags: bv32)
      modifies this`imports
      ensures imports == old(imports) + FakeImports(globalFlags)
    {
      var m1, m2, d2, d4 := globalFlags & USES_MPCX1 != 0, globalFlags & USES_MPCX2 != 0,
        globalFlags & USES_F64X2 != 0, globalFlags & USES_F64X4 != 0;
      ArenaMask(globalFlags);
      ghost var i0 := imports;
      if m1 {
        imports := imports + [FunctionImport("_operator_nop1", "_operator_nop1", SigII)];
      }
      ghost var i1 := imports;
      if m2 {
        imports := imports + [FunctionImport("_operator_nop2", "_operator_nop2", SigIII)];
      }
      ghost var i2 := imports;
      if d2 {
        imports := imports + [FunctionImport("_operator_nop2d", "_operator_nop2", SigDDI)];
      }
      ghost var i3 := imports;
      if d4 {
        imports := imports + [FunctionImport("_operator_nop4", "_operator_nop4", SigDDDDI)];
      }
      ghost var i4 := imports;
      if globalFlags & (USES_F64X2 | USES_F64X4 | USES_MPCX1 | USES_MPCX2) != 0 {
        imports := imports + [GlobalImport("_arena")];
      }
      ImportsForSplit(i0, i1, i2, i3, i4, imports, m1, m2, d2, d4);
    }

    /** abort: free the function visitors and the module. */
    method Abort()
      modifies this`disposed
      ensures disposed
    {
      disposed := true;
    }
  }

  /**
   * function_visitor: one function under construction. Its fields are the
   * components of a CodeGen.Gen, and each visit changes them exactly as the
   * CodeGen function of the same name does.
   */
  class FunctionVisitor {
    const parent: ModuleVisitor
    const name: string
    var flags: bv32
    var arenaSize: nat
    var needsUnwrap: bool
    /** the function's stack IR */
    var code: seq<Instr>
    /** the types of the locals added so far */
    var vars: seq<VType>
    var localConsts: seq<Cx>

    ghost function Snapshot(): Gen
      reads this
    {
      Gen(flags, arenaSize, needsUnwrap, code, vars, localConsts)
    }

    constructor (parent: ModuleVisitor, name: string)
      ensures this.parent == parent && this.name == name && Snapshot() == Fresh
    {
      this.parent := parent;
      this.name := name;
      flags := 0;
      arenaSize := 0;
      needsUnwrap := false;
      code := [];
      vars := [];
      localConsts := [];
    }

    /** Builder::addVar: a new local of type t, numbered after the parameters and the earlier locals. */
    method AddVar(t: VType) returns (index: nat)
      modifies this`vars
      ensures index == PARAMS + |old(vars)| && vars == old(vars) + [t]
    {
      index := PARAMS + |vars|;
      vars := vars + [t];
    }

    /** visit_basic: append one instruction. */
    method VisitBasic(ins: Instr)
      modifies this`code
      ensures code == old(code) + [ins]
    {
      code := code + [ins];
    }

    /** visit_entry_point: this function becomes the module's entry point. */
    method VisitEntryPoint()
      modifies parent`entryPoint
      ensures parent.entryPoint == name
    {
      parent.entryPoint := name;
    }

    /** visit_float */
    method VisitFloat(d: real)
      modifies this`code
      ensures Snapshot() == Emit(old(Snapshot()), [Const(F64Lit(d))])
    {
      VisitBasic(Const(F64Lit(d)));
    }

    /** visit_complex(std::complex<double>) */
    method VisitComplexDp(z: Cx)
      modifies this`code
      ensures Snapshot() == ComplexDp(old(Snapshot()), z)
    {
      VisitFloat(z.re);
      VisitFloat(z.im);
    }

    /**
     * visit_complex(mp_complex): record z among the local constants unless
     * already there. The global it would read is named after z's position,
     * returned here; the read itself is never emitted.
     */
    method VisitComplexMp(z: Cx) returns (position: nat)
      modifies this`localConsts
      ensures Snapshot() == ComplexMp(old(Snapshot()), z)
      ensures position < |localConsts| && localConsts[position] == z
      ensures forall p :: 0 <= p < position ==> localConsts[p] != z
    {
      position := 0;
      while position < |localConsts| && localConsts[position] != z
        invariant position <= |localConsts|
        invariant forall p :: 0 <= p < position ==> localConsts[p] != z
      {
        position := position + 1;
      }
      if position == |localConsts| {
        localConsts := localConsts + [z];
      }
      VisitGlobalGet("_complex_" + Decimal(position));
    }

    /** visit_ptr: an i32 constant holding an address. */
    method VisitPtr(lit: Lit)
      modifies this`code
      ensures Snapshot() == Emit(old(Snapshot()), [Const(lit)])
    {
      VisitBasic(Const(lit));
    }

    /** visit_global_get prepares a global read but never emits it. */
    method VisitGlobalGet(global: string)
      ensures Snapshot() == old(Snapshot())
    {
    }

    /** visit_mpcx2 */
    method VisitMpcx2(m: Routine)
      modifies this`arenaSize, this`flags, this`code
      ensures Snapshot() == Mpcx2(old(Snapshot()), m)
    {
      arenaSize := arenaSize + 2;
      flags := flags | USES_MPCX2;
      VisitBasic(GlobalGet("_arena"));
      VisitPtr(RoutinePtr(m));
      VisitBasic(CallIndirect(SigIII));
    }

    /** visit_mpcx1 */
    method VisitMpcx1(m: Routine)
      modifies this`arenaSize, this`flags, this`code
      ensures Snapshot() == Mpcx1(old(Snapshot()), m)
    {
      arenaSize := arenaSize + 1;
      flags := flags | USES_MPCX1;
      VisitBasic(GlobalGet("_arena"));
      VisitPtr(RoutinePtr(m));
      VisitBasic(CallIndirect(SigII));
    }

    /** visit_variable_mp */
    method VisitVariableMp(v: string) returns (ok: bool)
      modifies this`code
      ensures (Snapshot(), ok) == VariableMp(old(Snapshot()), v, parent.parameterName)
    {
      if v == parent.parameterName {
        VisitBasic(LocalGet(0));
        return true;
      } else if v !in ConstsMp() {
        return false;
      } else {
        VisitPtr(ConstPtr(v));
        return true;
      }
    }

    /** visit_binary_splat */
    method VisitBinarySplat(op: BinOp)
      modifies this`vars, this`code
      ensures Snapshot() == Splat(old(Snapshot()), op)
    {
      ghost var g0 := Snapshot();
      var d := StoreF64();
      var c := StoreF64();
      var b := StoreF64();
      assert d == NextLocal(g0) && c == d + 1 && b == d + 2;
      VisitSplatOps(op, d, c, b);
      assert vars == g0.vars + [F64, F64, F64];
      assert code == g0.code + SplatCode(op, d, c, b);
    }

    /** A new f64 local, and the instruction that pops the top of the stack into it. */
    method StoreF64() returns (k: nat)
      modifies this`vars, this`code
      ensures k == PARAMS + |old(vars)| && vars == old(vars) + [F64]
      ensures code == old(code) + [LocalSet(k)]
    {
      k := AddVar(F64);
      VisitBasic(LocalSet(k));
    }

    /** The arithmetic half of visit_binary_splat: a op c, then b op d. */
    method VisitSplatOps(op: BinOp, d: nat, c: nat, b: nat)
      modifies this`code
      ensures code == old(code) + [LocalGet(c), Binary(op), LocalGet(b), LocalGet(d), Binary(op)]
    {
      VisitBasic(LocalGet(c));
      VisitBasic(Binary(op));
      VisitBasic(LocalGet(b));
      VisitBasic(LocalGet(d));
      VisitBasic(Binary(op));
    }

    /** visit_add */
    method VisitAdd()
      modifies this`flags, this`needsUnwrap, this`vars, this`code
      ensures Snapshot() == AddOp(old(Snapshot()))
    {
      VisitUnwrap();
      VisitBinarySplat(AddF64);
    }

    /** visit_sub */
    method VisitSub()
      modifies this`flags, this`needsUnwrap, this`vars, this`code
      ensures Snapshot() == SubOp(old(Snapshot()))
    {
      VisitUnwrap();
      VisitBinarySplat(SubF64);
    }

    /** visit_mul */
    method VisitMul()
      modifies this`flags, this`needsUnwrap, this`vars, this`code
      ensures Snapshot() == MulOp(old(Snapshot()))
    {
      VisitUnwrap();
      ghost var u := Snapshot();
      var i := VisitBinary();
      ghost var b := Snapshot();
      assert (b, i) == BinaryStores(u);
      VisitMulRe(i);
      VisitMulIm(i);
      assert MulTailCode(i) == MulTailCode(i)[..6] + MulTailCode(i)[6..];
    }

    /** The first half of visit_mul's tail: the real part a*c - b*d. */
    method VisitMulRe(i: nat)
      modifies this`code
      ensures code == old(code) + MulTailCode(i)[..6]
    {
      VisitBasic(LocalGet(i + 1));
      VisitBasic(Binary(MulF64));
      VisitBasic(LocalGet(i + 2));
      VisitBasic(LocalGet(i));
      VisitBasic(Binary(MulF64));
      VisitBasic(Binary(SubF64));
    }

    /** The second half of visit_mul's tail: the imaginary part a*d + b*c. */
    method VisitMulIm(i: nat)
      modifies this`code
      ensures code == old(code) + MulTailCode(i)[6..]
    {
      VisitBasic(LocalGet(i + 3));
      VisitBasic(LocalGet(i));
      VisitBasic(Binary(MulF64));
      VisitBasic(LocalGet(i + 2));
      VisitBasic(LocalGet(i + 1));
      VisitBasic(Binary(MulF64));
      VisitBasic(Binary(AddF64));
    }

    /** visit_div */
    method VisitDiv()
      modifies this`flags, this`needsUnwrap, this`vars, this`code, this`arenaSize
      ensures Snapshot() == DivOp(old(Snapshot()))
    {
      VisitF64x4(FDiv);
    }

    /** visit_f64x2 */
    method VisitF64x2(m: Routine)
      modifies this`flags, this`needsUnwrap, this`vars, this`code, this`arenaSize
      ensures Snapshot() == F64x2(old(Snapshot()), m)
    {
      VisitUnwrap();
      arenaSize := arenaSize + 1;
      flags := flags | USES_F64X2;
      VisitBasic(GlobalGet("_arena"));
      VisitPtr(RoutinePtr(m));
      VisitBasic(CallIndirect(SigDDI));
      needsUnwrap := true;
    }

    /** visit_binary: store both operands in four new locals; the first of them is returned. */
    method VisitBinary() returns (v: nat)
      modifies this`flags, this`vars, this`code
      ensures (Snapshot(), v) == BinaryStores(old(Snapshot()))
    {
      ghost var c0, v0 := code, vars;
      flags := flags | USES_BINARY;
      v := AddVar(F64);
      VisitBasic(LocalSet(v));
      var l2 := AddVar(F64);
      VisitBasic(LocalSet(l2));
      var l3 := AddVar(F64);
      VisitBasic(LocalSet(l3));
      var l4 := AddVar(F64);
      VisitBasic(LocalTee(l4));
      assert vars == v0 + [F64, F64, F64, F64];
      assert code == c0 + BinaryStoreCode(v);
    }

    /** visit_unwrap: turn a pointer on top into its two parts, when there is one. */
    method VisitUnwrap()
      modifies this`flags, this`needsUnwrap, this`vars, this`code
      ensures Snapshot() == Unwrap(old(Snapshot()))
    {
      if needsUnwrap {
        flags := flags | USES_UNWRAP;
        VisitSplitPointer();
        needsUnwrap := false;
      }
    }

    /** The code visit_unwrap emits: keep the pointer, load the imaginary part into a new local, then the real part. */
    method VisitSplitPointer()
      modifies this`vars, this`code
      ensures vars == old(vars) + [I32, F64]
      ensures code == old(code) + UnwrapCode(PARAMS + |old(vars)|, PARAMS + |old(vars)| + 1)
    {
      ghost var c0, v0 := code, vars;
      ghost var t := PARAMS + |vars|;
      VisitDupi32();
      assert vars == v0 + [I32] && code == c0 + [LocalTee(t), LocalGet(t)];
      VisitBasic(Load(8));
      var k := AddVar(F64);
      VisitBasic(LocalSet(k));
      VisitBasic(Load(0));
      VisitBasic(LocalGet(k));
      assert vars == v0 + [I32, F64];
      assert code == c0 + UnwrapCode(t, k);
    }

    /** visit_f64x4 */
    method VisitF64x4(m: Routine)
      modifies this`flags, this`needsUnwrap, this`vars, this`code, this`arenaSize
      ensures Snapshot() == F64x4(old(Snapshot()), m)
    {
      VisitUnwrap();
      arenaSize := arenaSize + 1;
      flags := flags | USES_F64X4;
      VisitBasic(GlobalGet("_arena"));
      VisitPtr(RoutinePtr(m));
      VisitBasic(CallIndirect(SigDDDDI));
      needsUnwrap := true;
    }

    /**
     * visit_fxncall: look the function up in the table (which inserts a
     * zero entry for an unknown name) and call it. A zero handle is where
     * the source's assert fails; the visitor is then left as it was.
     */
    method VisitFxncall(fname: string, table: FxnTable) returns (ok: bool)
      modifies this`code, this`needsUnwrap, table
      ensures table.entries == SubscriptEntries(old(table.entries), fname)
      ensures ok <==> table.entries[fname] != 0
      ensures ok ==> Snapshot() == Fxncall(old(Snapshot()), table.entries[fname])
      ensures !ok ==> Snapshot() == old(Snapshot())
    {
      var h := table.Subscript(fname);
      if h == 0 {
        return false;
      }
      VisitBasic(Const(I32Lit(h)));
      VisitBasic(CallIndirect(SigDD));
      needsUnwrap := true;
      return true;
    }

    /** visit_variable_dp */
    method VisitVariableDp(v: string) returns (ok: bool)
      modifies this`flags, this`needsUnwrap, this`vars, this`code
      ensures (Snapshot(), ok) == VariableDp(old(Snapshot()), v, parent.parameterName)
    {
      VisitUnwrap();
      ghost var u := Snapshot();
      if v == parent.parameterName {
        VisitBasic(LocalGet(0));
        VisitBasic(LocalGet(1));
        assert code == u.code + [LocalGet(0), LocalGet(1)];
        return true;
      } else if v !in ConstsDp() {
        return false;
      } else {
        VisitComplexDp(ConstsDp()[v]);
        assert Snapshot() == ComplexDp(u, ConstsDp()[v]);
        return true;
      }
    }

    /** visit_dupi32: duplicate the i32 on top through a new local. */
    method VisitDupi32()
      modifies this`vars, this`code
      ensures Snapshot() == Dupi32(old(Snapshot()))
    {
      var t := AddVar(I32);
      VisitBasic(LocalTee(t));
      VisitBasic(LocalGet(t));
    }

    /** visit_dupf64 */
    method VisitDupf64()
      modifies this`flags, this`vars, this`code
      ensures Snapshot() == Dupf64(old(Snapshot()))
    {
      flags := flags | USES_DUPF64;
      var t := AddVar(F64);
      VisitBasic(LocalTee(t));
      VisitBasic(LocalGet(t));
    }

    /** visit_end: wrap a split-form result, return, and add the function to the module. */
    method VisitEnd() returns (fname: string)
      modifies this`flags, this`needsUnwrap, this`vars, this`code, this`arenaSize, parent`functions
      ensures Snapshot() == End(old(Snapshot()))
      ensures parent.functions == old(parent.functions) + [FunctionDef(name, vars, code)]
      ensures fname == name
    {
      if !needsUnwrap {
        VisitF64x2(FWrap);
      }
      VisitBasic(Return);
      parent.functions := parent.functions + [FunctionDef(name, vars, code)];
      fname := name;
    }
  }

  /** math_compiler_dp: compiles a postfix token stream into a double-precision function. */
  class MathCompilerDp {
    /** the name of the generated entry point and of its export */
    const name: string
    /** the name the function is installed under */
    const fxnName: string
    const parameterName: string

    constructor (name: string, fxnName: string, parameterName: string)
      ensures this.name == name && this.fxnName == fxnName && this.parameterName == parameterName
    {
      this.name := name;
      this.fxnName := fxnName;
      this.parameterName := parameterName;
    }

    /**
     * visit_operator: the four arithmetic operators, then the unary and the
     * binary morpheme tables. ok is false where the source aborts, and the
     * visitor is then untouched.
     */
    method VisitOperator(fv: FunctionVisitor, op: string) returns (ok: bool)
      modifies fv`flags, fv`needsUnwrap, fv`vars, fv`code, fv`arenaSize
      ensures ok <==> Operator(old(fv.Snapshot()), op).Some?
      ensures ok ==> fv.Snapshot() == Operator(old(fv.Snapshot()), op).value
      ensures !ok ==> fv.Snapshot() == old(fv.Snapshot())
    {
      if op == "+" {
        fv.VisitAdd();
        return true;
      } else if op == "-" {
        fv.VisitSub();
        return true;
      } else if op == "*" {
        fv.VisitMul();
        return true;
      } else if op == "/" {
        fv.VisitDiv();
        return true;
      } else {
        var unary := UnaryMorpheme(op);
        if unary.Some? {
          fv.VisitF64x2(unary.value);
          return true;
        } else {
          var binary := BinaryMorpheme(op);
          if binary.Some? {
            fv.VisitF64x4(binary.value);
            return true;
          }
        }
      }
      return false;
    }

    /**
     * One pass of compile()'s switch: the token's visit, with the error
     * where the source aborts (freeing the module first for an unknown
     * identifier or token type).
     */
    method VisitToken(mv: ModuleVisitor, fv: FunctionVisitor, tok: Token, table: FxnTable, parse: string -> Option<Cx>)
      returns (r: Result<(), CompileError>)
      requires fv.parent == mv && mv.parameterName == parameterName
      modifies fv`flags, fv`needsUnwrap, fv`vars, fv`code, fv`arenaSize, fv`localConsts, mv`disposed, table
      ensures r.Ok? <==> TokenGen(old(fv.Snapshot()), old(table.entries), tok, parameterName, parse).Ok?
      ensures r.Err? ==> r.error == TokenGen(old(fv.Snapshot()), old(table.entries), tok, parameterName, parse).error
      ensures r.Ok? ==> (fv.Snapshot(), table.entries) == TokenGen(old(fv.Snapshot()), old(table.entries), tok, parameterName, parse).value
      ensures r.Ok? ==> mv.disposed == old(mv.disposed)
    {
      if tok.ttype == NUMBER {
        var z := parse(tok.value);
        if z.None? {
          return Err(MalformedNumber(tok.value));
        }
        fv.VisitComplexDp(z.value);
      } else if tok.ttype == IDENTIFIER {
        var ok := fv.VisitVariableDp(tok.value);
        if !ok {
          mv.Abort();
          return Err(UnknownIdentifier(tok.value));
        }
      } else if tok.ttype == OPERATOR {
        var ok := VisitOperator(fv, tok.value);
        if !ok {
          return Err(UnknownOperator(tok.value));
        }
      } else if tok.ttype == FXNCALL {
        var ok := fv.VisitFxncall(tok.value, table);
        if !ok {
          return Err(UnknownFunction(tok.value));
        }
      } else {
        mv.Abort();
        return Err(UnknownTokenType(tok.ttype));
      }
      return Ok(());
    }

    /**
     * The end of compile(): the function becomes the entry point, is
     * finished and exported under `name`, and the module is finished and
     * installed.
     */
    method Finish(mv: ModuleVisitor, fv: FunctionVisitor, moduleBytes: seq<bv8>, h: nat, text: string, table: FxnTable)
      returns (f: CompiledFxn)
      requires fv.parent == mv && fv.name == name && mv.children == [fv] && mv.fxnName == fxnName && mv.parameterName == parameterName
      requires mv.hasModule && !mv.disposed
      modifies mv, fv, table
      ensures fresh(f) && f.Valid() && !f.released
      ensures f.name == name && f.fxnName == fxnName && f.parameterName == parameterName
      ensures f.arena.slots.Length == End(old(fv.Snapshot())).arenaSize && f.arena.index == 0
      ensures f.handle == h && f.disassembly == text
      ensures table.entries == old(table.entries)[fxnName := h]
    {
      fv.VisitEntryPoint();
      var fname := fv.VisitEnd();
      mv.VisitExport(fname, name);
      assert mv.ChildSizes() == [fv.arenaSize];
      assert SumSizes([fv.arenaSize]) == fv.arenaSize by {
        assert [fv.arenaSize][..0] == [];
      }
      f := mv.VisitEnd(moduleBytes, h, text, table);
    }

    /**
     * compile(): one module with one function named `name`, fed the tokens
     * in order. `parse` stands for the multiprecision number parser,
     * moduleBytes for the serialised module, h for the handle the loader
     * returns and text for the disassembly. Where the source aborts or an
     * assert fails, the result is the error; otherwise it is the installed
     * function, with an arena of exactly the slots the code uses.
     */
    method Compile(tokens: seq<Token>, table: FxnTable, parse: string -> Option<Cx>,
                   moduleBytes: seq<bv8>, h: nat, text: string)
      returns (r: Result<CompiledFxn, CompileError>)
      modifies table
      ensures tokens == [] ==> r == Err(EmptyExpression)
      ensures tokens != [] ==> (r.Ok? <==> CompileGen(tokens, old(table.entries), parameterName, parse).Ok?)
      ensures tokens != [] && r.Err? ==> r.error == CompileGen(tokens, old(table.entries), parameterName, parse).error
      ensures r.Ok? ==>
        var g := End(CompileGen(tokens, old(table.entries), parameterName, parse).value.0);
        && fresh(r.value) && r.value.Valid() && !r.value.released
        && r.value.name == name && r.value.fxnName == fxnName && r.value.parameterName == parameterName
        && r.value.arena.slots.Length == g.arenaSize && r.value.arena.index == 0
        && r.value.handle == h && r.value.disassembly == text
        && table.entries == old(table.entries)[fxnName := h]
    {
      var mv := new ModuleVisitor(fxnName, parameterName);
      mv.VisitModule();
      var fv := mv.VisitFunction(name);
      if |tokens| == 0 {
        return Err(EmptyExpression);
      }
      ghost var t0 := table.entries;
      for i := 0 to |tokens|
        invariant fv.parent == mv && fv.name == name && mv.children == [fv]
        invariant mv.hasModule && !mv.disposed
        invariant CompileGen(tokens[..i], t0, parameterName, parse) == Ok((fv.Snapshot(), table.entries))
        invariant mv.parameterName == parameterName && mv.fxnName == fxnName
      {
        var tok := tokens[i];
        assert tokens[..i + 1][..i] == tokens[..i];
        var step := VisitToken(mv, fv, tok, table, parse);
        if step.Err? {
          CompileErrSticks(tokens, i + 1, t0, parameterName, parse);
          return Err(step.error);
        }
      }
      assert tokens[..|tokens|] == tokens;
      CompileKeepsTable(tokens, t0, parameterName, parse);
      var f := Finish(mv, fv, moduleBytes, h, text, table);
      return Ok(f);
    }
  }
}
