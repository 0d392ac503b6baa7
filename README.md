# glam core, modelled in Dafny

glam plots complex functions. The user types a function such as
`f(z) = z^2 + sin(z)` in one of three editors:

- AsciiMath text;
- a MathQuill field;
- MathML.

A parser in the user interface turns the input into a postfix *token stack*. It also turns it into a function name that is a digest of that stack.

The C++ core compiles the token stack just-in-time into a WebAssembly module:

- `math_compiler_dp` drives a `module_visitor` and one `function_visitor`.
- The function visitor emits stack instructions.
- It keeps the bookkeeping for each instruction: capability flags, how many arena slots the code needs, and whether the value on top is a pointer into the arena or a split real/imaginary pair.
- The module visitor declares the imports that the flags call for and builds a `compiled_fxn` with a `fixed_arena` of the right size.
- `install` registers the function's handle in the global function table.

At run time the emitted code calls *morphemes*. These are native routines that allocate an arena slot, store a complex result there and return the slot. `linspace` and `latspace` fill the sample grids.

The Dafny project has one module per source file.

- **Wrappers**: Option and Result.
- **Complex**: exact complex arithmetic on pairs of reals. The host's transcendental routines are the uninterpreted `Numerics`.
- **Arena**: `fixed_arena`, a class over an `array` of slots with a bump cursor.
- **Morphemes**: one method per morpheme. Each allocates once and stores its value.
- **Globals**: the constant tables and `fxn_table`.
- **Fxn**: `compiled_fxn` and `virtual_fxn`.
- **StackIR**: the instruction set, with a small-step semantics for the arithmetic part.
- **CodeGen**: each visit as a pure function on the visitor's bookkeeping. This module also holds the proofs about that bookkeeping and about what the inline code computes.
- **MathCompiler**: the visitor classes. Each method is proved to change the visitor exactly as its CodeGen function says.
- **Utilities**: `linspace` and `latspace`.
- **JsText**: the JavaScript string operations the parsers use.
- **ExpressionParsing**: the AsciiMath path.
- **SemanticParsing**: the MathQuill path.
- **MathML**: the MathML path.

The parser classes keep their fields and update them in place. Each method is proved against a trace function, a list of pushes, aborts and field writes, which `Run` replays.

## Model

| member | source | states |
|---|---|---|
| Globals.ConstsDp | core/src/glam/jit/globals.cpp:22-23 | the double-precision constants are exactly e, \pi and i; i is the imaginary unit, e and \pi are real and above 2.7 and 3.14 |
| Globals.ConstsMp | core/src/glam/jit/globals.cpp:19-20 | the multiprecision constants are exactly e, \pi and i, with i the imaginary unit and e, \pi real |
| Globals.SameConstantNames | core/src/glam/jit/globals.cpp:19-23 | both precisions know exactly the same constant names |
| Globals.FxnTable.constructor | core/src/glam/jit/globals.cpp:25 | the function table starts empty |
| Globals.FxnTable.Subscript | core/src/glam/jit/math_compiler.cpp:455 | `fxn_table[name]` returns the stored handle, or inserts and returns 0 for an unknown name |
| Globals.FxnTable.Put | core/src/glam/fxn.cpp:42 | installing a handle overwrites that one entry |
| Globals.SubscriptEntries | core/src/glam/jit/math_compiler.cpp:455 | a lookup adds only the looked-up name, maps it to its old handle or 0, and keeps every other entry |
| Globals.SubscriptKeepsHandles | core/src/glam/jit/math_compiler.cpp:455 | any number of lookups never loses or changes an installed non-zero handle |
| Globals.SubscriptNeverInvents | core/src/glam/jit/math_compiler.cpp:455-456 | lookups never make a name that had no handle resolve to a non-zero one |
| Arena.StoreRun | core/src/glam/mem/fixed_arena.h:38-45 | a run of alloc-and-store steps keeps the number of slots |
| Arena.CursorStaysInRange | core/src/glam/mem/fixed_arena.h:38-45 | on a non-empty arena the cursor never passes the arena size, and it is at least 1 after any alloc |
| Arena.FirstRoundInOrder | core/src/glam/mem/fixed_arena.h:38-49 | after a reset the first n allocs hand out slots 0, 1, ..., n-1 in order |
| Arena.AllocPeriodic | core/src/glam/mem/fixed_arena.h:38-45 | the slot handed out repeats with period n: when the arena is full, alloc wraps to slot 0 |
| Arena.AllocInRound | core/src/glam/mem/fixed_arena.h:38-49 | after a reset, alloc number q*n + r (r < n) hands out slot r: every round repeats the first |
| Arena.AllocModulo | core/src/glam/mem/fixed_arena.h:38-49 | after a reset, the k-th alloc hands out slot k mod n, for every k |
| Arena.StoreRunFromReset | core/src/glam/mem/fixed_arena.h:38-49 | from a reset cursor, storing up to n values fills the first slots in order, leaves the rest untouched and leaves the cursor after them |
| Arena.FixedArena.constructor | core/src/glam/mem/fixed_arena.h:29-32 | n slots, all holding zero, all live, cursor at 0 |
| Arena.FixedArena.Alloc | core/src/glam/mem/fixed_arena.h:38-45 | returns the slot at the cursor and advances it, or resets and returns slot 0 when the arena is full; the returned slot is always in range |
| Arena.FixedArena.Reset | core/src/glam/mem/fixed_arena.h:47-49 | the cursor goes back to 0 |
| Arena.FixedArena.GetSize | core/src/glam/mem/fixed_arena.h:51-53 | the size is the number of slots |
| Arena.FixedArena.Release | core/src/glam/mem/fixed_arena.h:55-57 | every slot's value is freed and the cursor is untouched |
| Complex.ConjProperties | core/src/glam/morphemes.cpp:85-89 | conjugation is an involution, and z times its conjugate is the real number \|z\|^2 |
| Complex.DivThenMul | core/src/glam/morphemes.cpp:37-41 | division by a non-zero divisor is undone by multiplying by it |
| Morphemes.MorphemeAdd | core/src/glam/morphemes.cpp:19-23 | allocates one slot as alloc() does and stores the sum there; nothing else changes |
| Morphemes.MorphemeMul | core/src/glam/morphemes.cpp:25-29 | allocates one slot and stores the complex product there |
| Morphemes.MorphemeSub | core/src/glam/morphemes.cpp:31-35 | allocates one slot and stores the difference there |
| Morphemes.MorphemeDiv | core/src/glam/morphemes.cpp:37-41 | allocates one slot and stores the quotient there |
| Morphemes.MorphemeExp | core/src/glam/morphemes.cpp:43-47 | allocates one slot and stores the library power a^b there |
| Morphemes.MorphemeSin | core/src/glam/morphemes.cpp:49-53 | allocates one slot and stores the library sine there |
| Morphemes.MorphemeCos | core/src/glam/morphemes.cpp:55-59 | allocates one slot and stores the library cosine there |
| Morphemes.MorphemeTan | core/src/glam/morphemes.cpp:61-65 | allocates one slot and stores the library tangent there |
| Morphemes.MorphemeSinh | core/src/glam/morphemes.cpp:67-71 | allocates one slot and stores the sine there: the multiprecision sinh calls sin |
| Morphemes.MorphemeCosh | core/src/glam/morphemes.cpp:73-77 | allocates one slot and stores the cosine there: the multiprecision cosh calls cos |
| Morphemes.MorphemeTanh | core/src/glam/morphemes.cpp:79-83 | allocates one slot and stores the tangent there: the multiprecision tanh calls tan |
| Morphemes.MorphemeConj | core/src/glam/morphemes.cpp:85-89 | allocates one slot and stores the conjugate there |
| Morphemes.FMorphemeDiv | core/src/glam/morphemes.cpp:91-95 | from four f64 parts: allocates one slot and stores (a+bi)/(c+di) there |
| Morphemes.FMorphemeExp | core/src/glam/morphemes.cpp:97-101 | from four f64 parts: allocates one slot and stores (a+bi)^(c+di) there |
| Morphemes.FMorphemeWrap | core/src/glam/morphemes.cpp:103-107 | allocates one slot and stores a+bi there, turning a split pair into a pointer |
| Morphemes.FMorphemeSin | core/src/glam/morphemes.cpp:109-113 | allocates one slot and stores sin(a+bi) there |
| Morphemes.FMorphemeCos | core/src/glam/morphemes.cpp:115-120 | allocates one slot and stores cos(a+bi) there |
| Morphemes.FMorphemeTan | core/src/glam/morphemes.cpp:122-127 | allocates one slot and stores tan(a+bi) there |
| Morphemes.FMorphemeSinh | core/src/glam/morphemes.cpp:129-134 | allocates one slot and stores sinh(a+bi) there |
| Morphemes.FMorphemeCosh | core/src/glam/morphemes.cpp:136-141 | allocates one slot and stores cosh(a+bi) there |
| Morphemes.FMorphemeTanh | core/src/glam/morphemes.cpp:143-147 | allocates one slot and stores tanh(a+bi) there |
| Fxn.VirtualDisassembly | core/src/glam/fxn.h:116 | the disassembly of a virtual function is the fixed prefix followed by the function's name |
| Fxn.CompiledFxn.constructor | core/src/glam/fxn.h:92-95 | keeps the three names and creates a fresh zeroed arena of the requested size with its cursor at 0 |
| Fxn.CompiledFxn.Install | core/src/glam/fxn.cpp:22-49 | records the loader's handle and the disassembly, and registers the handle under the function name without touching other entries |
| Fxn.CompiledFxn.Invoke | core/src/glam/fxn.cpp:51-60 | the result is the value behind the returned pointer: the code's own last store, or the callee's value when the code ends in a call; code that stores nothing is accepted; the arena holds the stores the code made, in order from a reset cursor, and the cursor is back at 0 afterwards |
| Fxn.CompiledFxn.Release | core/src/glam/fxn.cpp:66-70 | every arena slot is freed, and the handle and readiness (fxn.cpp:62-64) are unchanged |
| Fxn.CompiledFxn.GetName | core/src/glam/fxn.h:71-73 | returns the entry point name |
| Fxn.CompiledFxn.GetFxnName | core/src/glam/fxn.h:75-77 | returns the installed function name |
| Fxn.CompiledFxn.GetParameterName | core/src/glam/fxn.h:79-81 | returns the parameter name |
| Fxn.CompiledFxn.GetDisassembly | core/src/glam/fxn.h:83-85 | returns the recorded disassembly |
| Fxn.VirtualFxn.constructor | core/src/glam/fxn.h:113-119 | keeps the names, has the virtual disassembly, and has no arena and a null handle |
| Fxn.VirtualFxn.Ready | core/src/glam/fxn.h:126-128 | a virtual function is always ready |
| Fxn.VirtualFxn.Release | core/src/glam/fxn.h:130-132 | releasing a virtual function changes nothing |
| Fxn.VirtualFxn.GetName | core/src/glam/fxn.h:71-73 | the inherited base accessor: returns the entry point name |
| Fxn.VirtualFxn.GetDisassembly | core/src/glam/fxn.h:83-85 | the inherited base accessor: returns the virtual disassembly |
| StackIR.ExecAppend | core/src/glam/jit/math_compiler.cpp:146-153 | running appended code is running the first part, then the second from where it stopped |
| StackIR.UnwrapSemantics | core/src/glam/jit/math_compiler.cpp:399-429 | the unwrap code replaces a pointer on top by the two f64 parts stored at it and at it plus 8 |
| StackIR.SplatSemantics | core/src/glam/jit/math_compiler.cpp:233-267 | the splat code turns a, b, c, d on the stack into (a op c), (b op d), the componentwise sum or difference |
| StackIR.MulSemantics | core/src/glam/jit/math_compiler.cpp:289-341 | the multiplication code turns a, b, c, d into the real and imaginary parts of (a+bi)(c+di) |
| StackIR.MulTailSemantics | core/src/glam/jit/math_compiler.cpp:297-339 | from the four stored operands, the tail of visit_mul leaves ac-bd and ad+bc |
| StackIR.MulRealPart | core/src/glam/jit/math_compiler.cpp:297-331 | the first six instructions of the tail turn a kept on the stack into ac - bd |
| StackIR.MulImagPart | core/src/glam/jit/math_compiler.cpp:333-339 | the last seven instructions of the tail push ad + bc |
| CodeGen.FreshInv | core/src/glam/jit/math_compiler.h:62-68 | a new function visitor has no flags, no arena slots, split form and no constants, and satisfies the bookkeeping invariant |
| CodeGen.FlagBits | core/src/glam/jit/math_compiler.h:57-60 | the eight capability flags are distinct single bits: OR-ing one in sets it and leaves the others as they were |
| CodeGen.UnwrapFacts | core/src/glam/jit/math_compiler.cpp:399-429 | unwrap emits code only for a pointer on top, always leaves split form, reserves nothing and keeps the invariant |
| CodeGen.F64x2Facts | core/src/glam/jit/math_compiler.cpp:353-373 | a unary f64 morpheme call reserves one slot, sets its flag, leaves pointer form and keeps the invariant |
| CodeGen.F64x4Facts | core/src/glam/jit/math_compiler.cpp:431-452 | a binary f64 morpheme call reserves one slot, sets its flag, leaves pointer form and keeps the invariant |
| CodeGen.Mpcx1Facts | core/src/glam/jit/math_compiler.cpp:195-212 | a one-operand multiprecision call reserves one slot, sets its flag, keeps the form and keeps the invariant |
| CodeGen.Mpcx2Facts | core/src/glam/jit/math_compiler.cpp:176-193 | a two-operand multiprecision call reserves two slots, sets its flag, keeps the form and keeps the invariant |
| CodeGen.SplatFacts | core/src/glam/jit/math_compiler.cpp:233-267 | the splat keeps the form and the arena size, and keeps the invariant |
| CodeGen.AddSubFacts | core/src/glam/jit/math_compiler.cpp:269-287 | + and - leave split form, reserve nothing and keep the invariant |
| CodeGen.MulFacts | core/src/glam/jit/math_compiler.cpp:289-341 | * leaves split form, reserves nothing, sets the binary flag and keeps the invariant |
| CodeGen.BinaryStoresFacts | core/src/glam/jit/math_compiler.cpp:375-397 | storing the operands keeps the form and the arena size, sets the binary flag, returns the first new local and keeps the invariant |
| CodeGen.ComplexDpFacts | core/src/glam/jit/math_compiler.cpp:133-144 | a double-precision constant changes neither flags, form nor arena size, and keeps the invariant |
| CodeGen.VariableDpFacts | core/src/glam/jit/math_compiler.cpp:474-497 | a variable is accepted exactly when it is the parameter or a double-precision constant; it leaves split form, reserves nothing and keeps the invariant |
| CodeGen.FxncallFacts | core/src/glam/jit/math_compiler.cpp:454-472 | a call of another function leaves pointer form, reserves nothing and keeps the invariant |
| CodeGen.EndFacts | core/src/glam/jit/math_compiler.cpp:527-540 | a split-form result gets exactly one wrap call, reserving one more slot; the code ends in a return and the result is a pointer |
| CodeGen.OperatorFacts | core/src/glam/jit/math_compiler.cpp:542-577 | exactly the eleven known operators are accepted; + - * are inline and leave split form; / ^ and the six trigonometric and hyperbolic names each reserve one slot and leave pointer form; the invariant is kept |
| CodeGen.TokenAccepts | core/src/glam/jit/math_compiler.cpp:585-611 | one token fails exactly when it is bad, with that token's error; a good one leaves the function table alone |
| CodeGen.TokenShape | core/src/glam/jit/math_compiler.cpp:585-611 | a good token moves the arena size and the form as its kind demands and keeps the invariant |
| CodeGen.CompileShape | core/src/glam/jit/math_compiler.cpp:579-616 | after a successful stream, the arena size is the number of morpheme tokens, the form is as the last non-number token leaves it, and the invariant holds |
| CodeGen.CompileKeepsTable | core/src/glam/jit/math_compiler.cpp:454-456 | a successful compile leaves the function table as it found it |
| CodeGen.CompileAccepts | core/src/glam/jit/math_compiler.cpp:583-611 | compile succeeds exactly when no token of the stream is bad |
| CodeGen.CompileFirstError | core/src/glam/jit/math_compiler.cpp:585-611 | a failing compile reports the error of the first bad token |
| CodeGen.InlinePushStep | core/src/glam/jit/math_compiler.cpp:133-144 | a number, the parameter or a constant pushes its value in split form onto a correctly computed stack |
| CodeGen.InlineSplatStep | core/src/glam/jit/math_compiler.cpp:269-287 | + and - replace the top two computed values by their complex sum or difference |
| CodeGen.InlineMulStep | core/src/glam/jit/math_compiler.cpp:289-341 | * replaces the top two computed values by their complex product |
| CodeGen.InlineStep | core/src/glam/jit/math_compiler.cpp:585-602 | each inline token compiles, keeps split form and extends a correct run to a correct run |
| CodeGen.InlineCorrect | core/src/glam/jit/math_compiler.cpp:579-611 | for any stream of numbers, the parameter, constants and + - * that evaluates as postfix, compile succeeds and the emitted code leaves exactly the evaluated complex values on the stack |
| MathCompiler.OrFlagsBit | core/src/glam/jit/math_compiler.cpp:53-58 | a call flag is set in the combined flags exactly when some child function set it |
| MathCompiler.ArenaMask | core/src/glam/jit/math_compiler.cpp:91-95 | the arena mask tests the four call flags at once |
| MathCompiler.FakeImportsFollowFlags | core/src/glam/jit/math_compiler.cpp:60-95 | each routine import is declared exactly when its own flag is set, and the arena global exactly when any call flag is |
| MathCompiler.ImportsMatchCode | core/src/glam/jit/math_compiler.cpp:51-95 | for a one-function module, the declared imports are exactly those the code calls, and the arena global is imported exactly when the code reads it |
| MathCompiler.CompiledFunction | core/src/glam/jit/math_compiler.cpp:51-98 | a compiled function's arena has one slot per morpheme plus one for the final wrap, its code ends in return, and its imports are exactly those it uses |
| MathCompiler.Decimal | core/src/glam/jit/math_compiler.cpp:160 | a number's decimal text is non-empty and all digits |
| MathCompiler.CompileErrSticks | core/src/glam/jit/math_compiler.cpp:585-611 | once a stream prefix fails, compile fails with that error whatever follows |
| MathCompiler.ModuleVisitor.constructor | core/src/glam/jit/math_compiler.h:41 | keeps the names; no module, imports, exports, functions or children yet |
| MathCompiler.ModuleVisitor.VisitModule | core/src/glam/jit/math_compiler.cpp:24-30 | creates the module and imports the host's memory and table |
| MathCompiler.ModuleVisitor.VisitExport | core/src/glam/jit/math_compiler.cpp:32-39 | appends one export of the inner name under the outer name |
| MathCompiler.ModuleVisitor.VisitFunction | core/src/glam/jit/math_compiler.cpp:41-49 | a fresh function visitor in the initial state, appended to the children |
| MathCompiler.ModuleVisitor.VisitEnd | core/src/glam/jit/math_compiler.cpp:51-110 | declares the imports for the OR of the children's flags, builds a function whose arena is the sum of their sizes, installs it, and frees the module |
| MathCompiler.ModuleVisitor.CombineChildren | core/src/glam/jit/math_compiler.cpp:53-58 | the combined flags are the OR, and the arena size the sum, over all children |
| MathCompiler.ModuleVisitor.DeclareFakeImports | core/src/glam/jit/math_compiler.cpp:60-95 | appends exactly the imports the flags call for |
| MathCompiler.ModuleVisitor.Abort | core/src/glam/jit/math_compiler.cpp:112-118 | frees the module and the children |
| MathCompiler.FunctionVisitor.constructor | core/src/glam/jit/math_compiler.cpp:120-126 | a visitor in the initial bookkeeping state |
| MathCompiler.FunctionVisitor.AddVar | core/src/glam/jit/math_compiler.cpp:378 | a new local, numbered after the two parameters and every earlier local |
| MathCompiler.FunctionVisitor.VisitBasic | core/src/glam/jit/math_compiler.cpp:146-153 | appends exactly one instruction |
| MathCompiler.FunctionVisitor.VisitEntryPoint | core/src/glam/jit/math_compiler.cpp:128-131 | the function becomes the module's entry point |
| MathCompiler.FunctionVisitor.VisitFloat | core/src/glam/jit/math_compiler.cpp:133-139 | pushes one f64 constant |
| MathCompiler.FunctionVisitor.VisitComplexDp | core/src/glam/jit/math_compiler.cpp:141-144 | changes the visitor as ComplexDp says, which ComplexDpFacts characterises |
| MathCompiler.FunctionVisitor.VisitComplexMp | core/src/glam/jit/math_compiler.cpp:155-161 | records the constant once and returns its first position among the local constants |
| MathCompiler.FunctionVisitor.VisitPtr | core/src/glam/jit/math_compiler.cpp:163-168 | pushes one address constant |
| MathCompiler.FunctionVisitor.VisitGlobalGet | core/src/glam/jit/math_compiler.cpp:170-174 | emits nothing |
| MathCompiler.FunctionVisitor.VisitMpcx2 | core/src/glam/jit/math_compiler.cpp:176-193 | changes the visitor as Mpcx2 says (Mpcx2Facts) |
| MathCompiler.FunctionVisitor.VisitMpcx1 | core/src/glam/jit/math_compiler.cpp:195-212 | changes the visitor as Mpcx1 says (Mpcx1Facts) |
| MathCompiler.FunctionVisitor.VisitVariableMp | core/src/glam/jit/math_compiler.cpp:214-231 | changes the visitor, and reports acceptance, as VariableMp says |
| MathCompiler.FunctionVisitor.VisitBinarySplat | core/src/glam/jit/math_compiler.cpp:233-267 | changes the visitor as Splat says (SplatFacts, SplatSemantics) |
| MathCompiler.FunctionVisitor.StoreF64 | core/src/glam/jit/math_compiler.cpp:234-244 | adds one f64 local, numbered after all earlier ones, and pops the top of the stack into it |
| MathCompiler.FunctionVisitor.VisitSplatOps | core/src/glam/jit/math_compiler.cpp:246-266 | appends a op c, then b op d, reading the stored locals |
| MathCompiler.FunctionVisitor.VisitAdd | core/src/glam/jit/math_compiler.cpp:269-277 | changes the visitor as AddOp says (AddSubFacts, InlineSplatStep) |
| MathCompiler.FunctionVisitor.VisitSub | core/src/glam/jit/math_compiler.cpp:279-287 | changes the visitor as SubOp says (AddSubFacts, InlineSplatStep) |
| MathCompiler.FunctionVisitor.VisitMul | core/src/glam/jit/math_compiler.cpp:289-341 | changes the visitor as MulOp says (MulFacts, InlineMulStep) |
| MathCompiler.FunctionVisitor.VisitMulRe | core/src/glam/jit/math_compiler.cpp:297-331 | appends the real-part half of the multiplication tail |
| MathCompiler.FunctionVisitor.VisitMulIm | core/src/glam/jit/math_compiler.cpp:333-339 | appends the imaginary-part half of the multiplication tail |
| MathCompiler.FunctionVisitor.VisitDiv | core/src/glam/jit/math_compiler.cpp:343-351 | changes the visitor as DivOp says |
| MathCompiler.FunctionVisitor.VisitF64x2 | core/src/glam/jit/math_compiler.cpp:353-373 | changes the visitor as F64x2 says (F64x2Facts) |
| MathCompiler.FunctionVisitor.VisitBinary | core/src/glam/jit/math_compiler.cpp:375-397 | stores both operands in four new locals and returns the first |
| MathCompiler.FunctionVisitor.VisitUnwrap | core/src/glam/jit/math_compiler.cpp:399-429 | changes the visitor as Unwrap says (UnwrapFacts, UnwrapSemantics) |
| MathCompiler.FunctionVisitor.VisitSplitPointer | core/src/glam/jit/math_compiler.cpp:403-427 | adds an i32 and an f64 local and appends the code that replaces a pointer by the real and imaginary parts it points to |
| MathCompiler.FunctionVisitor.VisitF64x4 | core/src/glam/jit/math_compiler.cpp:431-452 | changes the visitor as F64x4 says (F64x4Facts) |
| MathCompiler.FunctionVisitor.VisitFxncall | core/src/glam/jit/math_compiler.cpp:454-472 | looks the name up, inserting 0 for an unknown one; succeeds exactly for a non-zero handle and then emits the call, otherwise leaves the visitor as it was |
| MathCompiler.FunctionVisitor.VisitVariableDp | core/src/glam/jit/math_compiler.cpp:474-497 | changes the visitor, and reports acceptance, as VariableDp says (VariableDpFacts) |
| MathCompiler.FunctionVisitor.VisitDupi32 | core/src/glam/jit/math_compiler.cpp:499-509 | duplicates the i32 on top through a new local |
| MathCompiler.FunctionVisitor.VisitDupf64 | core/src/glam/jit/math_compiler.cpp:511-521 | duplicates the f64 on top through a new local and sets its flag |
| MathCompiler.FunctionVisitor.VisitEnd | core/src/glam/jit/math_compiler.cpp:527-540 | finishes as End says (EndFacts) and adds the function, with its locals and code, to the module |
| MathCompiler.MathCompilerDp.constructor | core/src/glam/jit/math_compiler.h:135-136 | keeps the entry point, function and parameter names |
| MathCompiler.MathCompilerDp.VisitOperator | core/src/glam/jit/math_compiler.cpp:548-577 | succeeds exactly for a known operator and then changes the visitor as Operator says; an unknown one leaves it untouched |
| MathCompiler.MathCompilerDp.VisitToken | core/src/glam/jit/math_compiler.cpp:585-611 | one token's visit succeeds exactly when TokenGen does, with the same error or the same new visitor and table |
| MathCompiler.MathCompilerDp.Finish | core/src/glam/jit/math_compiler.cpp:613-616 | the finished function is installed with an arena of the size End leaves |
| MathCompiler.MathCompilerDp.Compile | core/src/glam/jit/math_compiler.cpp:579-617 | an empty stream is an error; otherwise compile succeeds exactly when CompileGen does, with the same error, and the result has an arena of exactly the slots the code uses and is installed under its name |
| Utilities.LinspaceSeq | core/src/glam/utilities.cpp:22-29 | the sample sequence has the container's length |
| Utilities.Linspace | core/src/glam/utilities.cpp:22-29 | the container is filled with the evenly spaced samples |
| Utilities.LinspaceEnds | core/src/glam/utilities.cpp:22-29 | the first sample is left, the last is right, and consecutive samples differ by one constant step |
| Utilities.LinspaceIncreasing | core/src/glam/utilities.cpp:22-29 | for left < right the samples are strictly increasing |
| Utilities.LinspaceThreeOnUnit | core/src/glam/utilities.cpp:22-29 | three samples on [0, 1] are 0, 0.5 and 1 |
| Utilities.Row | core/src/glam/utilities.cpp:39-43 | one lattice row has one point per column |
| Utilities.Fill | core/src/glam/utilities.cpp:40-41 | writing points while the iterator is in range overwrites a prefix and leaves the rest |
| Utilities.LatticeLength | core/src/glam/utilities.cpp:38-44 | the lattice has rows times columns points |
| Utilities.LatticeRowMajor | core/src/glam/utilities.cpp:38-44 | point (j, k) is at index j*cols + k and has real part from column k and imaginary part from row j |
| Utilities.LatticeTwoByTwo | core/src/glam/utilities.cpp:38-44 | a 2x2 unit lattice is 0, 1, i, 1+i in that order |
| Utilities.Latspace | core/src/glam/utilities.cpp:35-45 | the container is overwritten with the row-major lattice as far as it reaches, and the rest is kept |
| Utilities.LatspaceRow | core/src/glam/utilities.cpp:39-43 | one pass of the inner loop extends the filled prefix by one row |
| Utilities.PutPoint | core/src/glam/utilities.cpp:40-41 | a write through the iterator happens only before the end and extends the filled prefix by one point |
| JsText.Take | ui/src/ExpressionParser.ts:353 | `substr(0, n)` is the prefix of length exactly min(n, length): the whole text when it is shorter than n |
| JsText.ReplaceFirst | ui/src/ExpressionParser.ts:284 | removes exactly the first occurrence of the character, keeping the text before and after it, and leaves text without it unchanged |
| JsText.FirstIndex | ui/src/ExpressionParser.ts:284 | the position `replace` removes: it holds the character and no earlier position does |
| JsText.Utf16Length | ui/src/input/MathML.ts:156 | `length` counts UTF-16 code units: between one and two per character, and 1 exactly for a single character inside the Basic Multilingual Plane |
| JsText.Utf16LengthBmp | ui/src/input/MathML.ts:156 | `length` equals the character count iff no character lies outside the Basic Multilingual Plane |
| ExpressionParsing.RunAfterAbort | ui/src/ExpressionParser.ts:346-349 | an abort empties the stack and records its message; what is pushed afterwards is the whole stack |
| ExpressionParsing.RunClean | ui/src/ExpressionParser.ts:325-327 | a walk that only pushes appends its objects and touches no other field |
| ExpressionParsing.DuplicateDefinition | ui/src/ExpressionParser.ts:71-74 | a second declaration on the same parser is refused with an error, and the stack is cleared |
| ExpressionParsing.NamedDeclaration | ui/src/ExpressionParser.ts:95-107 | `name(arg) = rhs` with a literal or greek name records the name and argument and hands on exactly rhs |
| ExpressionParsing.IllegalFunctionName | ui/src/ExpressionParser.ts:109-112 | a two-part expression whose head is not a literal, greek letter or unary operator is refused as an illegal name |
| ExpressionParsing.BinaryPostfix | ui/src/ExpressionParser.ts:250-254 | a binary operation pushes the left tokens, then the right tokens, then the operator |
| ExpressionParsing.FractionPostfix | ui/src/ExpressionParser.ts:150-163 | a fraction pushes the numerator tokens, then the denominator tokens, then `/` |
| ExpressionParsing.LiteralLeaf | ui/src/ExpressionParser.ts:305-311 | a literal leaf pushes exactly one object: NUMBER when it parses as a number, IDENTIFIER otherwise |
| ExpressionParsing.BracketCases | ui/src/ExpressionParser.ts:177-191 | a bracket missing a part aborts as incomplete, round brackets walk the middle, and any other bracket aborts as unrecognized |
| ExpressionParsing.DeclaredFunction | ui/src/ExpressionParser.ts:337-344 | end to end: a fresh parser given `name(arg) = rhs` ends with name, argument, no error and exactly rhs's tokens |
| ExpressionParsing.ExpressionParser.constructor | ui/src/ExpressionParser.ts:331-335 | empty stack, no name, argument or error, and the R2C type |
| ExpressionParsing.ExpressionParser.Visit | ui/src/ExpressionParser.ts:337-344 | the fields change as the declaration and then the definition walk prescribe, stopping at a TypeError |
| ExpressionParsing.ExpressionParser.Abort | ui/src/ExpressionParser.ts:346-349 | the stack is emptied and the message recorded |
| ExpressionParsing.ExpressionParser.GenerateFunctionName | ui/src/ExpressionParser.ts:351-354 | `__jit_` followed by the first 16 characters of the digest of the type, name, argument and stack |
| ExpressionParsing.FunctionDeclarationVisitor.constructor | ui/src/ExpressionParser.ts:65-68 | keeps its parser |
| ExpressionParsing.FunctionDeclarationVisitor.Visit | ui/src/ExpressionParser.ts:70-117 | changes the parser, returns the right-hand side and reports a TypeError exactly as DeclarationOf says |
| ExpressionParsing.FunctionDeclarationVisitor.VisitUnaryHead | ui/src/ExpressionParser.ts:85-94 | `op(arg) = rhs` records the argument, then the operator as the name, and hands on rhs; a missing part is a TypeError |
| ExpressionParsing.FunctionDeclarationVisitor.VisitLetterHead | ui/src/ExpressionParser.ts:96-108 | `name(arg) = rhs` records the name, then the argument, and hands on rhs; a bracket without contents is a TypeError |
| ExpressionParsing.FunctionDefinitionVisitor.constructor | ui/src/ExpressionParser.ts:125-128 | keeps its parser |
| ExpressionParsing.FunctionDefinitionVisitor.VisitObject | ui/src/ExpressionParser.ts:325-327 | appends exactly one object to the stack |
| ExpressionParsing.FunctionDefinitionVisitor.VisitLiteral | ui/src/ExpressionParser.ts:265-271 | pushes NUMBER for a literal that parses as a number and IDENTIFIER otherwise |
| ExpressionParsing.FunctionDefinitionVisitor.Visit | ui/src/ExpressionParser.ts:130-202 | the parser's fields change as the walk's trace prescribes, and the result reports whether the walk stopped |
| ExpressionParsing.FunctionDefinitionVisitor.VisitConstantPrefix | ui/src/ExpressionParser.ts:135-140 | an expression led by a constant walks its operand, then pushes the constant as an operator |
| ExpressionParsing.FunctionDefinitionVisitor.VisitBracket | ui/src/ExpressionParser.ts:177-191 | only a complete round bracket is walked into; a missing part or another bracket aborts with its message |
| ExpressionParsing.FunctionDefinitionVisitor.VisitDash | ui/src/ExpressionParser.ts:144-148 | a dashed node walks its expression, then pushes `-` |
| ExpressionParsing.FunctionDefinitionVisitor.VisitFraction | ui/src/ExpressionParser.ts:150-163 | walks both parts of a fraction, then pushes `/` |
| ExpressionParsing.FunctionDefinitionVisitor.VisitBranch | ui/src/ExpressionParser.ts:204-248 | the fields change as the trace of a two-part expression prescribes |
| ExpressionParsing.FunctionDefinitionVisitor.VisitSignedTail | ui/src/ExpressionParser.ts:214-219 | an operand before a signed term is multiplied by the first part, then the signed term is walked |
| ExpressionParsing.FunctionDefinitionVisitor.VisitNegative | ui/src/ExpressionParser.ts:220-223 | an operand before a negated expression becomes a subtraction; a negation without an operand is a TypeError |
| ExpressionParsing.FunctionDefinitionVisitor.VisitImaginary | ui/src/ExpressionParser.ts:225-236 | a literal before `i` pushes the literal, `i` and `\cdot` |
| ExpressionParsing.FunctionDefinitionVisitor.VisitBinaryOperation | ui/src/ExpressionParser.ts:250-254 | the fields change as BinaryTrace prescribes (BinaryPostfix) |
| ExpressionParsing.FunctionDefinitionVisitor.VisitUnaryOperation | ui/src/ExpressionParser.ts:256-263 | the fields change as UnaryTrace prescribes |
| ExpressionParsing.FunctionDefinitionVisitor.VisitSubsup | ui/src/ExpressionParser.ts:273-303 | the fields change as SubsupTrace prescribes |
| ExpressionParsing.FunctionDefinitionVisitor.VisitExponent | ui/src/ExpressionParser.ts:281-293 | a re-parsed exponent is walked and `^` pushed; a failed re-parse aborts |
| ExpressionParsing.FunctionDefinitionVisitor.VisitFractionPart | ui/src/ExpressionParser.ts:305-323 | the fields change as FractionPartTrace prescribes (LiteralLeaf) |
| SemanticParsing.FindPrefix | ui/src/components/MathQuillField.tsx:113 | the search fails exactly when no operator begins the symbol, and otherwise returns one that does |
| SemanticParsing.SinhBeforeSin | ui/src/components/MathQuillField.tsx:45-59 | a symbol beginning `sinh` finds `sinh`, not `sin` |
| SemanticParsing.FirstPrefixWins | ui/src/components/MathQuillField.tsx:113 | the search returns exactly the first operator in list order that begins the symbol |
| SemanticParsing.SinAfterHyperbolic | ui/src/components/MathQuillField.tsx:45-59 | a symbol beginning `sin` but not `sinh` finds `sin` |
| SemanticParsing.IdentifierStep | ui/src/components/MathQuillField.tsx:89-95 | the parameter or a global is pushed as IDENTIFIER; anything else leaves the stack and records "unrecognized symbol" |
| SemanticParsing.TokenStep | ui/src/components/MathQuillField.tsx:131-205 | the walk only appends to the stack, and any pending jump lies beyond the token |
| SemanticParsing.AfterToken | ui/src/components/MathQuillField.tsx:193-204 | jumping or moving on only appends to the stack, and any pending jump lies beyond the token |
| SemanticParsing.MultisymbolStep | ui/src/components/MathQuillField.tsx:105-129 | the multi-letter step only appends to the stack, and any pending jump lies beyond the token |
| SemanticParsing.MultisymbolCases | ui/src/components/MathQuillField.tsx:105-129 | no matching operator is an error with nothing pushed; with a remainder, the remainder and then the operator are pushed; with none, the following tokens come before the operator |
| SemanticParsing.BinaryOperator | ui/src/components/MathQuillField.tsx:184-190 | a binary operator between tokens visits its right side, then pushes itself; at either end it is an error and nothing is pushed |
| SemanticParsing.NegationOrder | ui/src/components/MathQuillField.tsx:174-181 | a negating `-` pushes NUMBER -1, the operand's tokens, then `*` |
| SemanticParsing.ClosingBracket | ui/src/components/MathQuillField.tsx:140-143 | a closing bracket only records where the walk resumes |
| SemanticParsing.GenerateFunctionName | ui/src/components/MathQuillField.tsx:224-227 | `__jit_` followed by the first 16 characters of the digest of name, parameter and stack; 22 characters for a full digest |
| SemanticParsing.SemanticParser.constructor | ui/src/components/MathQuillField.tsx:61-67 | empty symbol, stack, tokens and error, no jump and no name or parameter |
| SemanticParsing.SemanticParser.ParseError | ui/src/components/MathQuillField.tsx:81-83 | records the message and leaves the stack |
| SemanticParsing.SemanticParser.VisitNumber | ui/src/components/MathQuillField.tsx:85-87 | pushes one NUMBER |
| SemanticParsing.SemanticParser.VisitIdentifier | ui/src/components/MathQuillField.tsx:89-95 | changes the fields as IdentifierStep says |
| SemanticParsing.SemanticParser.VisitBinary | ui/src/components/MathQuillField.tsx:97-99 | pushes one OPERATOR |
| SemanticParsing.SemanticParser.VisitUnary | ui/src/components/MathQuillField.tsx:101-103 | pushes one OPERATOR |
| SemanticParsing.SemanticParser.MaybeVisitMultisymbol | ui/src/components/MathQuillField.tsx:105-129 | changes the fields, and reports a visit, as MultisymbolStep says (MultisymbolCases) |
| SemanticParsing.SemanticParser.VisitToken | ui/src/components/MathQuillField.tsx:131-205 | changes the fields as TokenStep says |
| SemanticParsing.SemanticParser.VisitNumberToken | ui/src/components/MathQuillField.tsx:150-161 | a number followed by a signed imaginary number is pushed as one complex literal; any other number is pushed alone |
| SemanticParsing.SemanticParser.VisitOperatorToken | ui/src/components/MathQuillField.tsx:173-191 | a leading minus becomes -1 times what follows; an operator without both neighbours is an error; otherwise it is pushed after its right operand |
| SemanticParsing.SemanticParser.ContinueAfter | ui/src/components/MathQuillField.tsx:193-204 | a pending jump resumes at its target, when that token exists, and clears it; otherwise the walk goes on with the next token |
| SemanticParsing.SemanticParser.VisitMath | ui/src/components/MathQuillField.tsx:207-210 | tokenizes the text and walks from the first token |
| SemanticParsing.SemanticParser.VisitFunctionDefinition | ui/src/components/MathQuillField.tsx:212-221 | a matching definition records name and parameter and walks the body; any other text is an error |
| MathML.LexLeaf | ui/src/input/MathML.ts:77-88 | a leaf is dropped exactly when it is a bracket; it becomes a function application exactly for U+2061 under a parent `mo`; otherwise it keeps its name, type and text |
| MathML.LexNode | ui/src/input/MathML.ts:90-132 | a node the lexer keeps has no bracket leaf anywhere in its tree |
| MathML.LexRow | ui/src/input/MathML.ts:71-75 | a row becomes a PAREN `mrow` node without text, with no bracket leaf anywhere in its tree |
| MathML.LexChildren | ui/src/input/MathML.ts:71-75 | no kept child has a bracket leaf anywhere in its tree |
| MathML.Lex | ui/src/input/MathML.ts:54-59 | any root but `mrow` throws "not an mrow node!"; a lexed root is a PAREN node with no bracket leaf anywhere in its tree |
| MathML.ScriptsBecomeTriples | ui/src/input/MathML.ts:107-129 | a superscript or fraction with both parts becomes [base, `^`, exponent] or [numerator, `/`, denominator] |
| MathML.StepTrace | ui/src/input/MathML.ts:166-231 | every turn of the loop moves past the current child |
| MathML.ProductEnd | ui/src/input/MathML.ts:194-198 | the implied product ends at or after its start |
| MathML.ExpressionTurn | ui/src/input/MathML.ts:179-201 | a turn at an expression moves past it |
| MathML.BinaryTurn | ui/src/input/MathML.ts:204-227 | a turn at an operator moves past it |
| MathML.LeafPushesOne | ui/src/input/MathML.ts:234-241 | a number or identifier pushes exactly one object with its contents and its type |
| MathML.ImaginaryNumber | ui/src/input/MathML.ts:185-189 | a number followed by `i` pushes one imaginary NUMBER and consumes both |
| MathML.BinaryBetweenExpressions | ui/src/input/MathML.ts:219-225 | `prev op next` pushes prev's tokens, next's tokens, then the operator |
| MathML.LeadingMinus | ui/src/input/MathML.ts:212-218 | a leading minus sign pushes the operand, NUMBER -1, then `\cdot` |
| MathML.TrailingOperator | ui/src/input/MathML.ts:204-207 | an operator with nothing after it records "incomplete binary expression" and empties the stack |
| MathML.FunctionApplication | ui/src/input/MathML.ts:170-176 | `name` U+2061 `arg` pushes the argument's tokens, then the name as an operator, consuming three children |
| MathML.SumRow | ui/src/input/MathML.ts:159-232 | the row `a + b` leaves the stack `a b +` |
| MathML.AstralIdentifiersVanish | ui/src/input/MathML.ts:155-157 | an identifier outside the Basic Multilingual Plane is no expression, so a row of two of them visits only their empty children and pushes nothing |
| MathML.MathMLParser.constructor | ui/src/input/MathML.ts:151-153 | empty stack and no error |
| MathML.MathMLParser.Error | ui/src/input/MathML.ts:247-250 | records the message and empties the stack |
| MathML.MathMLParser.PushObject | ui/src/input/MathML.ts:152 | appends one object and keeps the error |
| MathML.MathMLParser.VisitNode | ui/src/input/MathML.ts:234-245 | the fields change as NodeTrace prescribes |
| MathML.MathMLParser.VisitChildren | ui/src/input/MathML.ts:159-232 | the fields change as ChildrenTrace prescribes |
| MathML.MathMLParser.VisitAt | ui/src/input/MathML.ts:166-231 | one turn changes the fields as StepTrace prescribes and resumes where it says |
| MathML.MathMLParser.VisitExpressionAt | ui/src/input/MathML.ts:179-201 | a turn at an expression changes the fields as ExpressionTurn prescribes |
| MathML.MathMLParser.VisitBinaryAt | ui/src/input/MathML.ts:204-227 | a turn at an operator changes the fields as BinaryTurn prescribes |
| MathML.MathMLParser.VisitProduct | ui/src/input/MathML.ts:194-198 | the implied-product loop changes the fields as ProductTrace prescribes and stops at ProductEnd |
| MathML.MathMLParser.VisitFactor | ui/src/input/MathML.ts:195-196 | one factor of the implied product changes the fields as the factor's NodeTrace followed by pushing `\cdot` prescribes |

## Left out

- Floating point: reals are exact, so rounding, infinities and NaN are not modelled. A zero divisor uses the library's value as a parameter.
- The transcendental routines (sin, cos, tan, the hyperbolic functions, pow) of the standard and multiprecision libraries are uninterpreted parameters.
- The WebAssembly loader (`EM_ASM_INT`, `addFunction`), binaryen's module building, validation, serialisation and disassembly: the module bytes, the handle and the disassembly text are parameters.
- Fxn.CompiledFxn.Invoke: native execution is not modelled. The values the code stores into its arena, and where its returned pointer points (its own last store, or a value in a callee's arena when the code ends in a call), are parameters. They are not derived from the compiled code.
- The `GEN_SIMD` code paths: the flag is never set by any visit, so they are not modelled.
- The 32-bit width of `arena_size`, `flags` and the handles: counts are unbounded naturals, so no wrap-around is modelled.
- Destructors and `delete`: only which arena slots are still live is tracked.
- The global read that `visit_global_get` prepares is never added to the function body, so only its name is modelled.
- MathCompiler.FunctionVisitor.VisitComplexMp returns the constant's index in the local constants. The source computes it from an iterator taken before `push_back`, which is the same index unless the vector reallocates.
- MathCompiler.FunctionVisitor.VisitFxncall: the source's `assert(ptr)` on the looked-up handle is modelled as a checked failure, which MathCompiler.MathCompilerDp.VisitToken reports as UnknownFunction. A release build (NDEBUG) would instead emit a call through handle 0; that behaviour is not modelled.
- MathCompiler.MathCompilerDp.Compile: the source's `assert(len > 0)` on the token stream is modelled as the error EmptyExpression. A release build (NDEBUG) would compile a function with an empty body; that behaviour is not modelled.
- MathCompiler.MathCompilerDp.VisitToken: the conversion of a NUMBER token's text (`mp_complex(value)`, Boost's parser) is the `parse` parameter. An exception it throws is modelled as `parse` returning None, reported as MalformedNumber. Boost's number grammar is not modelled.
- `multipoint`, `colors`, the Emscripten bindings and the React components other than SemanticParser are not part of this model.
- The regular expressions (MathQuill's tokenizer and function pattern), `Module.Globals.isGlobal`, the AsciiMath parser, `parseFloat`, SHA-1 and the DOM's string conversion of a node are parameters.
- ExpressionParsing.FunctionDefinitionVisitor.Visit: a property read on `undefined`, which throws a TypeError, is modelled as a stop of the walk.
- ExpressionParsing.FunctionDefinitionVisitor.Visit: re-parsing an exponent is bounded by a fuel parameter. Running out of fuel is a stop, so trees nested deeper than the fuel are not described.
- MathML.MathMLParser.VisitChildren requires that the loop never reaches an expression in the last position. There the source reads a property of an undefined neighbour and throws.
- MathML.MathMLParser.VisitNode: the same requirement, for the node's subtree.
- JsText.Take: counts characters, not UTF-16 code units as `substr` does. The one text it cuts is a SHA-1 hex digest, which is ASCII, so the two agree there. Likewise SemanticParser strips an ASCII unary operator from the front of its symbol, which is the same cut in either count. Only `isExpression` depends on the code-unit length, and it uses JsText.Utf16Length.
- MathML.LexNode: MLNode's `parent` back-pointer is dropped because no code reads it.
- SemanticParsing.SemanticParser.VisitToken requires no pending jump on entry, which is how every caller in the source starts a walk.
- SemanticParsing.SemanticParser.VisitFunctionDefinition requires no pending jump on entry, for the same reason.
- Utilities.Linspace requires at least two elements. For fewer, the source divides by zero (one element) or by an unsigned wrap-around (none).
- Utilities.Latspace takes the number of rows and columns instead of looping while the real and imaginary parts stay below `right`. Those floating-point loop tests are left out.
- Morphemes.MorphemeSinh, Morphemes.MorphemeCosh and Morphemes.MorphemeTanh store the sine, cosine and tangent, as the multiprecision source does.
