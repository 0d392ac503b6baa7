/**
 * The AsciiMath input path of the user interface (ui/src/ExpressionParser.ts).
 *
 * A declaration visitor finds `name(arg) = rhs` in the tree the AsciiMath
 * parser returns and records the name and the argument; a definition visitor
 * then walks `rhs` and pushes a postfix token stack. An abort empties the
 * stack and records a message, and the walk goes on after it.
 *
 * The classes keep the source's fields and update them in place; each of
 * their methods is proved against a trace function: the sequence of events
 * (a push, an abort, a field assignment, a thrown TypeError) that the method
 * performs, read by Run. A property access on `undefined`, which throws in
 * the source, is the event Throw: Run stops there, and so does every method.
 * The AsciiMath parser itself and `parseFloat` are parameters (Host).
 */
module ExpressionParsing {
  import opened Wrappers
  import opened JsText

  /**
   * A node of the AsciiMath tree. Every optional property of the source's
   * interfaces (AMExpression and the interfaces extending it) is an Option;
   * `dash` only matters through its truthiness.
   */
  datatype AM = AM(
    tex: string, ttype: string, token: string, dash: bool,
    exprs: Children, op: Option<AM>, arg: Option<AM>,
    left: Option<AM>, middle: Option<AM>, right: Option<AM>,
    arg1: Option<AM>, arg2: Option<AM>,
    numerator: Option<AM>, denominator: Option<AM>,
    expression: Option<AM>, subsup: Option<AM>, sub: Option<AM>, sup: Option<AM>)

  /** The optional `exprs` array of a node. */
  datatype Children = Absent | Present(items: seq<AM>)

  datatype ObjType = NUMBER | IDENTIFIER | OPERATOR

  datatype StackObject = StackObject(value: string, otype: ObjType)

  datatype ProtofunctionType = C | R2C | C2C

  /**
   * The code this model does not contain: the AsciiMath parser run on a
   * string (None for a null result), and whether `parseFloat` yields a number.
   */
  datatype Host = Host(reparse: string -> Option<AM>, parsesAsNumber: string -> bool)

  function Op(s: string): StackObject { StackObject(s, OPERATOR) }

  /** The object visitLiteral pushes for a literal. */
  function LiteralObject(h: Host, literal: string): StackObject {
    StackObject(literal, if h.parsesAsNumber(literal) then NUMBER else IDENTIFIER)
  }

  // ---------------------------------------------------------------------
  // A size measure for the walks' termination
  // ---------------------------------------------------------------------

  function Size(e: AM): nat
    decreases e, 1, 0
  {
    1 + SizeFrom(e, 0)
      + (if e.arg.Some? then Size(e.arg.value) else 0)
      + (if e.middle.Some? then Size(e.middle.value) else 0)
      + (if e.expression.Some? then Size(e.expression.value) else 0)
      + (if e.numerator.Some? then Size(e.numerator.value) else 0)
      + (if e.denominator.Some? then Size(e.denominator.value) else 0)
      + (if e.arg1.Some? then Size(e.arg1.value) else 0)
      + (if e.arg2.Some? then Size(e.arg2.value) else 0)
  }

  function OptSize(o: Option<AM>): nat {
    if o.Some? then Size(o.value) else 0
  }

  /** The sizes of the children `exprs[i..]` of `e`. */
  function SizeFrom(e: AM, i: nat): (r: nat)
    ensures e.exprs.Present? ==> forall j :: i <= j < |e.exprs.items| ==> Size(e.exprs.items[j]) <= r
    ensures e.exprs.Present? && i + 1 < |e.exprs.items| ==> Size(e.exprs.items[i]) + Size(e.exprs.items[i + 1]) <= r
    decreases e, 0, if e.exprs.Present? then |e.exprs.items| - i else 0
  {
    if e.exprs.Absent? || i >= |e.exprs.items| then 0
    else Size(e.exprs.items[i]) + SizeFrom(e, i + 1)
  }

  // ---------------------------------------------------------------------
  // Events and their effect on the parser's fields
  // ---------------------------------------------------------------------

  datatype Event =
    | Push(obj: StackObject)
    | Abort(msg: string)
    | SetName(name: string)
    | SetArg(arg: string)
    /** a property read on `undefined`: a TypeError leaves the whole parse */
    | Throw
    /** a re-parse nested deeper than the fuel allows */
    | Exhausted

  /** The fields of ExpressionParser the visitors write. */
  datatype ParserState = ParserState(
    functionName: Option<string>, functionArg: Option<string>,
    stack: seq<StackObject>, error: Option<string>)

  predicate Stops(ev: Event) { ev.Throw? || ev.Exhausted? }

  function Step(s: ParserState, ev: Event): ParserState {
    match ev
    case Push(o) => s.(stack := s.stack + [o])
    case Abort(m) => s.(stack := [], error := Some(m))
    case SetName(n) => s.(functionName := Some(n))
    case SetArg(a) => s.(functionArg := Some(a))
    case _ => s
  }

  /** The fields after the events, up to the first one that stops the parse. */
  function Run(s: ParserState, evs: seq<Event>): ParserState
    decreases |evs|
  {
    if evs == [] || Stops(evs[0]) then s else Run(Step(s, evs[0]), evs[1..])
  }

  predicate Halts(evs: seq<Event>)
    decreases |evs|
  {
    evs != [] && (Stops(evs[0]) || Halts(evs[1..]))
  }

  /** The objects pushed by a trace. */
  function Emitted(evs: seq<Event>): seq<StackObject>
    decreases |evs|
  {
    if evs == [] then []
    else (if evs[0].Push? then [evs[0].obj] else []) + Emitted(evs[1..])
  }

  /** A trace that only pushes: no abort, no field assignment, no stop. */
  predicate Clean(evs: seq<Event>) {
    forall i :: 0 <= i < |evs| ==> evs[i].Push?
  }

  /** Running two traces one after the other; a stop in the first cuts off the second. */
  lemma {:induction false} RunAppend(s: ParserState, a: seq<Event>, b: seq<Event>)
    ensures Halts(a + b) == (Halts(a) || Halts(b))
    ensures Run(s, a + b) == if Halts(a) then Run(s, a) else Run(Run(s, a), b)
    decreases |a|
  {
    if a == [] {
      assert a + b == b;
    } else {
      assert (a + b)[0] == a[0];
      assert (a + b)[1..] == a[1..] + b;
      RunAppend(Step(s, a[0]), a[1..], b);
    }
  }

  lemma RunOne(s: ParserState, ev: Event)
    ensures Run(s, [ev]) == if Stops(ev) then s else Step(s, ev)
    ensures Halts([ev]) == Stops(ev)
  {
    assert [ev][1..] == [];
  }

  lemma {:induction false} EmittedAppend(a: seq<Event>, b: seq<Event>)
    ensures Emitted(a + b) == Emitted(a) + Emitted(b)
    decreases |a|
  {
    if a == [] {
      assert a + b == b;
    } else {
      assert (a + b)[0] == a[0];
      assert (a + b)[1..] == a[1..] + b;
      EmittedAppend(a[1..], b);
    }
  }

  /** A trace that only pushes leaves every field but the stack alone and appends its objects. */
  lemma {:induction false} RunClean(s: ParserState, evs: seq<Event>)
    requires Clean(evs)
    ensures Run(s, evs) == s.(stack := s.stack + Emitted(evs))
    ensures !Halts(evs)
    decreases |evs|
  {
    if evs != [] {
      assert Clean(evs[1..]) by {
        forall i | 0 <= i < |evs[1..]| ensures evs[1..][i].Push? {
          assert evs[1..][i] == evs[i + 1];
        }
      }
      var o := evs[0].obj;
      assert Emitted(evs) == [o] + Emitted(evs[1..]);
      RunClean(Step(s, evs[0]), evs[1..]);
      assert s.stack + [o] + Emitted(evs[1..]) == s.stack + Emitted(evs);
    }
  }

  /**
   * An abort empties the stack and records its message, and the walk goes
   * on: whatever is pushed afterwards is the whole stack.
   */
  lemma RunAfterAbort(s: ParserState, before: seq<Event>, msg: string, after: seq<Event>)
    requires !Halts(before) && Clean(after)
    ensures Run(s, before + [Abort(msg)] + after).stack == Emitted(after)
    ensures Run(s, before + [Abort(msg)] + after).error == Some(msg)
  {
    RunAppend(s, before, [Abort(msg)]);
    RunAppend(s, before + [Abort(msg)], after);
    var t := Run(s, before);
    RunOne(t, Abort(msg));
    RunClean(Step(t, Abort(msg)), after);
  }

  // ---------------------------------------------------------------------
  // FunctionDeclarationVisitor.visit as a trace
  // ---------------------------------------------------------------------

  datatype Declaration = Declaration(events: seq<Event>, rhs: Option<AM>)

  /** `x` is `= rhs`: two children, the first of which is the equals sign. */
  predicate IsEquation(x: AM) {
    x.exprs.Present? && |x.exprs.items| == 2 && x.exprs.items[0].tex == "="
  }

  const NotFound := Declaration([Abort("unable to find function declaration")], None)

  function DeclarationOf(name: Option<string>, arg: Option<string>, e: AM): Declaration
    decreases e
  {
    if Truthy(name) || Truthy(arg) then
      Declaration([Abort("duplicate function definition")], None)
    else if StartsWith(e.ttype, "expression") && e.exprs.Present? && |e.exprs.items| == 1 then
      DeclarationOf(name, arg, e.exprs.items[0])
    else if e.exprs.Absent? || |e.exprs.items| < 2 then
      Declaration([Abort("empty equation")], None)
    else
      var x0, x1 := e.exprs.items[0], e.exprs.items[1];
      if x0.ttype == "unary" then UnaryHeadDeclaration(x0, x1)
      else if e.ttype == "expression" && |e.exprs.items| == 2 then
        if x0.ttype == "literal" || x0.ttype == "greek" then LetterHeadDeclaration(x0, x1)
        else Declaration([Abort("illegal function name")], None)
      else NotFound
  }

  /** `op(arg) = rhs` with a unary operator `op`: the argument, then the operator's token as the name. */
  function UnaryHeadDeclaration(x0: AM, x1: AM): Declaration {
    if x0.arg.Some? && x0.arg.value.ttype == "bracket" && IsEquation(x1) then
      match x0.arg.value.middle
      case None => Declaration([Throw], None)
      case Some(m) =>
        if x0.op.Some? then Declaration([SetArg(m.tex), SetName(x0.op.value.token)], Some(x1.exprs.items[1]))
        else Declaration([SetArg(m.tex), Throw], None)
    else NotFound
  }

  /** `name(arg) = rhs` with a literal or greek `name`: the name, then the argument. */
  function LetterHeadDeclaration(x0: AM, x1: AM): Declaration {
    if x1.exprs.Present? && |x1.exprs.items| == 2 && x1.exprs.items[0].ttype == "bracket" && IsEquation(x1.exprs.items[1]) then
      match x1.exprs.items[0].middle
      case None => Declaration([SetName(x0.tex), Throw], None)
      case Some(m) => Declaration([SetName(x0.tex), SetArg(m.tex)], Some(x1.exprs.items[1].exprs.items[1]))
    else NotFound
  }

  // ---------------------------------------------------------------------
  // FunctionDefinitionVisitor as traces
  // ---------------------------------------------------------------------

  /** The first expression the AsciiMath parser returns for `text`, when it returns one. */
  function FirstParsed(h: Host, text: string): Option<AM> {
    match h.reparse(text)
    case None => None
    case Some(p) => if p.exprs.Present? && |p.exprs.items| > 0 then Some(p.exprs.items[0]) else None
  }

  function VisitTrace(h: Host, e: AM, fuel: nat): seq<Event>
    decreases fuel, Size(e), 4
  {
    if StartsWith(e.ttype, "expression") && e.exprs.Present? && |e.exprs.items| == 1 then
      VisitTrace(h, e.exprs.items[0], fuel)
    else if StartsWith(e.ttype, "expression") && e.exprs.Present? && |e.exprs.items| == 2
            && (e.exprs.items[0].ttype == "arbitrary_constant" || e.exprs.items[0].ttype == "other_constant") then
      VisitTrace(h, e.exprs.items[1], fuel) + [Push(Op(e.exprs.items[0].tex))]
    else if e.dash then
      (if e.expression.Some? then VisitTrace(h, e.expression.value, fuel) else [Throw]) + [Push(Op("-"))]
    else if e.ttype == "fraction" || (e.ttype == "binary" && e.op.Some? && e.op.value.tex == "\\frac") then
      if e.numerator.Some? && e.denominator.Some? then
        FractionPartTrace(h, e.numerator, fuel) + FractionPartTrace(h, e.denominator, fuel) + [Push(Op("/"))]
      else
        FractionPartTrace(h, e.arg1, fuel) + FractionPartTrace(h, e.arg2, fuel) + [Push(Op("/"))]
    else if (e.ttype == "literal" || e.ttype == "greek") && (e.exprs.Absent? || |e.exprs.items| == 0) then
      [Push(LiteralObject(h, e.tex))]
    else if e.ttype == "intermediate" then
      SubsupTrace(h, e, fuel)
    else if e.ttype == "bracket" then
      if e.left.None? || e.right.None? || e.middle.None? then [Abort("incomplete bracket expression")]
      else if e.left.value.tex == "(" && e.right.value.tex == ")" then VisitTrace(h, e.middle.value, fuel)
      else [Abort("unrecognized bracket type")]
    else if e.exprs.Present? && |e.exprs.items| == 2 then
      BranchTrace(h, e, fuel)
    else if e.ttype == "unary" then
      UnaryTrace(h, e, fuel)
    else
      []
  }

  predicate OperandKind(t: string) {
    t == "literal" || t == "intermediate" || t == "bracket" || t == "fraction" || t == "greek"
  }

  function BranchTrace(h: Host, e: AM, fuel: nat): seq<Event>
    decreases fuel, Size(e), 3
  {
    if e.exprs.Absent? || |e.exprs.items| < 2 then [Abort("not a branch expression")]
    else
      var l, r := e.exprs.items[0], e.exprs.items[1];
      if !OperandKind(l.ttype) then []
      else if r.ttype == "expression" && (r.exprs.Absent? || |r.exprs.items| < 2) then [Throw]
      else if r.ttype == "expression" && (StartsWith(r.exprs.items[1].tex, "+") || StartsWith(r.exprs.items[1].tex, "-")) then
        BinaryTrace(h, l, "\\cdot", r.exprs.items[0], fuel) + VisitTrace(h, r.exprs.items[1], fuel)
      else if r.ttype == "negative_expression" then
        if r.expression.Some? then BinaryTrace(h, l, "-", r.expression.value, fuel)
        else VisitTrace(h, l, fuel) + [Throw]
      else if (l.ttype == "literal" || l.ttype == "greek") && r.tex == "i" then
        [Push(if !h.parsesAsNumber(l.tex) then StackObject(l.tex, IDENTIFIER) else LiteralObject(h, l.tex)),
         Push(LiteralObject(h, "i")), Push(Op("\\cdot"))]
      else if r.exprs.Present? && |r.exprs.items| == 2 && r.exprs.items[0].ttype == "arbitrary_constant" then
        BinaryTrace(h, l, r.exprs.items[0].tex, r.exprs.items[1], fuel)
      else
        BinaryTrace(h, l, "\\cdot", r, fuel)
  }

  function BinaryTrace(h: Host, l: AM, morpheme: string, r: AM, fuel: nat): seq<Event>
    decreases fuel, Size(l) + Size(r), 2
  {
    VisitTrace(h, l, fuel) + VisitTrace(h, r, fuel) + [Push(Op(morpheme))]
  }

  function UnaryTrace(h: Host, e: AM, fuel: nat): seq<Event>
    decreases fuel, Size(e), 3
  {
    if e.arg.None? || e.op.None? then [Abort("not a unary operation")]
    else VisitTrace(h, e.arg.value, fuel) + [Push(Op(e.op.value.token))]
  }

  function SubsupTrace(h: Host, e: AM, fuel: nat): seq<Event>
    decreases fuel, Size(e), 3
  {
    match e.subsup
    case None => [Abort("not a subscript/superscript expression")]
    case Some(ss) =>
      if ss.sup.Some? then
        (if e.expression.Some? then VisitTrace(h, e.expression.value, fuel) else [Throw]) +
        match FirstParsed(h, ReplaceFirst(ReplaceFirst(ss.sup.value.tex, '{'), '}'))
        case None => [Abort("incomplete superscript")]
        case Some(y) => if fuel == 0 then [Exhausted] else VisitTrace(h, y, fuel - 1) + [Push(Op("^"))]
      else if ss.sub.Some? then
        if e.expression.None? then [Throw]
        else if e.expression.value.ttype == "literal" then
          [Push(LiteralObject(h, e.expression.value.tex + "_" + ss.sub.value.tex))]
        else [Abort("illegal subscript")]
      else []
  }

  function FractionPartTrace(h: Host, part: Option<AM>, fuel: nat): seq<Event>
    decreases fuel, OptSize(part), 5
  {
    match part
    case None => [Abort("incomplete fraction")]
    case Some(x) =>
      if x.ttype == "literal" then VisitTrace(h, x, fuel)
      else
        match FirstParsed(h, x.tex)
        case None => [Abort("incomplete fraction")]
        case Some(y) => if fuel == 0 then [Exhausted] else VisitTrace(h, y, fuel - 1)
  }

  /** ExpressionParser.visit: the declaration, then the definition when one was found. */
  function ParseTrace(h: Host, name: Option<string>, arg: Option<string>, e: AM, fuel: nat): seq<Event> {
    var d := DeclarationOf(name, arg, e);
    d.events + (if d.rhs.Some? then VisitTrace(h, d.rhs.value, fuel) else [])
  }

  // ---------------------------------------------------------------------
  // Properties of the traces
  // ---------------------------------------------------------------------

  /** A second declaration on the same parser is refused and clears the stack. */
  lemma DuplicateDefinition(name: Option<string>, arg: Option<string>, e: AM, s: ParserState)
    requires Truthy(name) || Truthy(arg)
    ensures DeclarationOf(name, arg, e).rhs.None?
    ensures Run(s, DeclarationOf(name, arg, e).events)
         == s.(stack := [], error := Some("duplicate function definition"))
  {
    RunOne(s, Abort("duplicate function definition"));
  }

  /** The tree of `name(arg) = rhs`, with `name` of the given node kind. */
  predicate NamedShape(e: AM, nameKind: string) {
    e.ttype == "expression" && e.exprs.Present? && |e.exprs.items| == 2
    && e.exprs.items[0].ttype == nameKind
    && var x1 := e.exprs.items[1];
       x1.exprs.Present? && |x1.exprs.items| == 2 && x1.exprs.items[0].ttype == "bracket"
       && x1.exprs.items[0].middle.Some? && IsEquation(x1.exprs.items[1])
  }

  /**
   * `name(arg) = rhs` with a literal or greek name records the name and the
   * argument, touches nothing else, and hands `rhs` to the definition visitor.
   */
  lemma NamedDeclaration(e: AM, s: ParserState)
    requires NamedShape(e, "literal") || NamedShape(e, "greek")
    requires !Truthy(s.functionName) && !Truthy(s.functionArg)
    ensures var x1 := e.exprs.items[1];
      DeclarationOf(s.functionName, s.functionArg, e).rhs == Some(x1.exprs.items[1].exprs.items[1])
      && Run(s, DeclarationOf(s.functionName, s.functionArg, e).events)
         == s.(functionName := Some(e.exprs.items[0].tex), functionArg := Some(x1.exprs.items[0].middle.value.tex))
  {
    var d := DeclarationOf(s.functionName, s.functionArg, e);
    assert !StartsWith(e.ttype, "expression") || |e.exprs.items| != 1;
    var x1 := e.exprs.items[1];
    var m := x1.exprs.items[0].middle.value;
    assert d.events == [SetName(e.exprs.items[0].tex), SetArg(m.tex)];
    RunAppend(s, [SetName(e.exprs.items[0].tex)], [SetArg(m.tex)]);
    assert [SetName(e.exprs.items[0].tex)] + [SetArg(m.tex)] == d.events;
    RunOne(s, SetName(e.exprs.items[0].tex));
    RunOne(Step(s, SetName(e.exprs.items[0].tex)), SetArg(m.tex));
  }

  /**
   * A two-part top-level expression whose first part is neither a literal,
   * a greek letter nor a unary operator is refused as an illegal name.
   */
  lemma IllegalFunctionName(e: AM, s: ParserState)
    requires e.ttype == "expression" && e.exprs.Present? && |e.exprs.items| == 2
    requires e.exprs.items[0].ttype !in {"unary", "literal", "greek"}
    requires !Truthy(s.functionName) && !Truthy(s.functionArg)
    ensures DeclarationOf(s.functionName, s.functionArg, e).rhs.None?
    ensures Run(s, DeclarationOf(s.functionName, s.functionArg, e).events)
         == s.(stack := [], error := Some("illegal function name"))
  {
    assert StartsWith(e.ttype, "expression");
    RunOne(s, Abort("illegal function name"));
  }

  /**
   * Binary operation: when neither operand aborts or stops, the stack grows
   * by the left operand's tokens, the right operand's tokens and the
   * operator, in that order.
   */
  lemma BinaryPostfix(h: Host, l: AM, morpheme: string, r: AM, fuel: nat, s: ParserState)
    requires Clean(VisitTrace(h, l, fuel)) && Clean(VisitTrace(h, r, fuel))
    ensures Run(s, BinaryTrace(h, l, morpheme, r, fuel)).stack
         == s.stack + Emitted(VisitTrace(h, l, fuel)) + Emitted(VisitTrace(h, r, fuel)) + [Op(morpheme)]
  {
    var a, b := VisitTrace(h, l, fuel), VisitTrace(h, r, fuel);
    var c := [Push(Op(morpheme))];
    assert Clean(a + b + c) by {
      forall i | 0 <= i < |a + b + c| ensures (a + b + c)[i].Push? {
        if i < |a| { assert (a + b + c)[i] == a[i]; }
        else if i < |a| + |b| { assert (a + b + c)[i] == b[i - |a|]; }
      }
    }
    RunClean(s, a + b + c);
    EmittedAppend(a + b, c);
    EmittedAppend(a, b);
    assert Emitted(c) == [Op(morpheme)] by { assert c[1..] == []; }
  }

  /**
   * A fraction of two complete parts: numerator tokens, denominator tokens,
   * then `/`; with two literal leaves this is `[num, den, /]`.
   */
  lemma FractionPostfix(h: Host, e: AM, fuel: nat, s: ParserState)
    requires e.ttype == "fraction" && !e.dash && e.numerator.Some? && e.denominator.Some?
    requires Clean(FractionPartTrace(h, e.numerator, fuel)) && Clean(FractionPartTrace(h, e.denominator, fuel))
    ensures Run(s, VisitTrace(h, e, fuel)).stack
         == s.stack + Emitted(FractionPartTrace(h, e.numerator, fuel))
            + Emitted(FractionPartTrace(h, e.denominator, fuel)) + [Op("/")]
  {
    var a, b := FractionPartTrace(h, e.numerator, fuel), FractionPartTrace(h, e.denominator, fuel);
    var c := [Push(Op("/"))];
    assert !StartsWith(e.ttype, "expression");
    assert VisitTrace(h, e, fuel) == a + b + c;
    assert Clean(a + b + c) by {
      forall i | 0 <= i < |a + b + c| ensures (a + b + c)[i].Push? {
        if i < |a| { assert (a + b + c)[i] == a[i]; }
        else if i < |a| + |b| { assert (a + b + c)[i] == b[i - |a|]; }
      }
    }
    RunClean(s, a + b + c);
    EmittedAppend(a + b, c);
    EmittedAppend(a, b);
    assert Emitted(c) == [Op("/")] by { assert c[1..] == []; }
  }

  /** A literal leaf (no children, no dash) pushes the one object visitLiteral chooses. */
  lemma LiteralLeaf(h: Host, x: AM, fuel: nat)
    requires x.ttype == "literal" && !x.dash && (x.exprs.Absent? || |x.exprs.items| == 0)
    ensures FractionPartTrace(h, Some(x), fuel) == [Push(LiteralObject(h, x.tex))]
  {
    assert !StartsWith(x.ttype, "expression");
  }

  /**
   * Only round brackets are walked into: a bracket missing a part aborts
   * with "incomplete bracket expression", `( … )` is its middle, and every
   * other kind aborts with "unrecognized bracket type".
   */
  lemma BracketCases(h: Host, e: AM, fuel: nat, s: ParserState)
    requires e.ttype == "bracket" && !e.dash
    ensures e.left.None? || e.right.None? || e.middle.None? ==>
      Run(s, VisitTrace(h, e, fuel)) == s.(stack := [], error := Some("incomplete bracket expression"))
    ensures e.left.Some? && e.right.Some? && e.middle.Some? && e.left.value.tex == "(" && e.right.value.tex == ")" ==>
      VisitTrace(h, e, fuel) == VisitTrace(h, e.middle.value, fuel)
    ensures e.left.Some? && e.right.Some? && e.middle.Some? && !(e.left.value.tex == "(" && e.right.value.tex == ")") ==>
      Run(s, VisitTrace(h, e, fuel)) == s.(stack := [], error := Some("unrecognized bracket type"))
  {
    assert !StartsWith(e.ttype, "expression");
    RunOne(s, Abort("incomplete bracket expression"));
    RunOne(s, Abort("unrecognized bracket type"));
  }

  /**
   * End to end: a fresh parser given `name(arg) = rhs` ends with the name,
   * the argument, no error, and exactly the tokens of `rhs` on its stack
   * when the walk of `rhs` only pushes.
   */
  lemma DeclaredFunction(h: Host, e: AM, fuel: nat)
    requires NamedShape(e, "literal") || NamedShape(e, "greek")
    requires Clean(VisitTrace(h, e.exprs.items[1].exprs.items[1].exprs.items[1], fuel))
    ensures var x1 := e.exprs.items[1];
      Run(ParserState(None, None, [], None), ParseTrace(h, None, None, e, fuel))
      == ParserState(Some(e.exprs.items[0].tex), Some(x1.exprs.items[0].middle.value.tex),
                     Emitted(VisitTrace(h, x1.exprs.items[1].exprs.items[1], fuel)), None)
  {
    var s0 := ParserState(None, None, [], None);
    var d := DeclarationOf(None, None, e);
    NamedDeclaration(e, s0);
    var rhs := e.exprs.items[1].exprs.items[1].exprs.items[1];
    var t := VisitTrace(h, rhs, fuel);
    assert d.events == [SetName(e.exprs.items[0].tex), SetArg(e.exprs.items[1].exprs.items[0].middle.value.tex)];
    assert !Halts(d.events) by {
      RunAppend(s0, [SetName(e.exprs.items[0].tex)], [SetArg(e.exprs.items[1].exprs.items[0].middle.value.tex)]);
      assert [SetName(e.exprs.items[0].tex)] + [SetArg(e.exprs.items[1].exprs.items[0].middle.value.tex)] == d.events;
      RunOne(s0, SetName(e.exprs.items[0].tex));
      RunOne(s0, SetArg(e.exprs.items[1].exprs.items[0].middle.value.tex));
    }
    RunAppend(s0, d.events, t);
    RunClean(Run(s0, d.events), t);
  }

  // ---------------------------------------------------------------------
  // The classes
  // ---------------------------------------------------------------------

  function ShowType(t: Option<ProtofunctionType>): string {
    match t
    case None => "undefined"
    case Some(C) => "0"
    case Some(R2C) => "1"
    case Some(C2C) => "2"
  }

  function ShowObjType(t: ObjType): string {
    match t
    case NUMBER => "0"
    case IDENTIFIER => "1"
    case OPERATOR => "2"
  }

  /** `stack.map(obj => obj.type + ":" + obj.value).join("_")` */
  function JoinStack(stack: seq<StackObject>): string
    decreases |stack|
  {
    if stack == [] then ""
    else
      var entry := ShowObjType(stack[0].otype) + ":" + stack[0].value;
      if |stack| == 1 then entry else entry + "_" + JoinStack(stack[1..])
  }

  class ExpressionParser {
    var functionName: Option<string>
    var functionArg: Option<string>
    var stack: seq<StackObject>
    var error: Option<string>
    var ptype: Option<ProtofunctionType>

    ghost function State(): ParserState
      reads this
    {
      ParserState(functionName, functionArg, stack, error)
    }

    constructor()
      ensures State() == ParserState(None, None, [], None)
      ensures ptype == Some(R2C)
    {
      functionName := None;
      functionArg := None;
      stack := [];
      error := None;
      ptype := Some(R2C);
    }

    /** Runs the declaration visitor, then the definition visitor on the right-hand side it found. */
    method Visit(expr: AM, host: Host, fuel: nat) returns (halted: bool)
      modifies this`functionName, this`functionArg, this`stack, this`error
      ensures State() == Run(old(State()), ParseTrace(host, old(functionName), old(functionArg), expr, fuel))
      ensures halted == Halts(ParseTrace(host, old(functionName), old(functionArg), expr, fuel))
    {
      ghost var s0 := State();
      ghost var d := DeclarationOf(functionName, functionArg, expr);
      var declarationVisitor := new FunctionDeclarationVisitor(this);
      var definitionExpr, threw := declarationVisitor.Visit(expr);
      RunAppend(s0, d.events, if d.rhs.Some? then VisitTrace(host, d.rhs.value, fuel) else []);
      var definitionVisitor := new FunctionDefinitionVisitor(this, host);
      if threw {
        return true;
      }
      if definitionExpr.Some? {
        halted := definitionVisitor.Visit(definitionExpr.value, fuel);
      } else {
        halted := false;
      }
    }

    /** Empties the stack and records the message. */
    method Abort(msg: string)
      modifies this`stack, this`error
      ensures stack == [] && error == Some(msg)
    {
      stack := [];
      error := Some(msg);
    }

    /** `"__jit_"` and the first 16 characters of the hex digest of the parser's fields and stack. */
    method GenerateFunctionName(sha1: string -> string) returns (name: string)
      ensures 6 <= |name| <= 22 && name[..6] == "__jit_"
      ensures |sha1(ShowType(ptype) + "_" + Show(functionName) + "_" + Show(functionArg) + JoinStack(stack))| >= 16
              ==> |name| == 22
      ensures name[6..] == Take(sha1(ShowType(ptype) + "_" + Show(functionName) + "_" + Show(functionArg) + JoinStack(stack)), 16)
    {
      var raw := ShowType(ptype) + "_" + Show(functionName) + "_" + Show(functionArg) + JoinStack(stack);
      name := "__jit_" + Take(sha1(raw), 16);
    }
  }

  class FunctionDeclarationVisitor {
    const parser: ExpressionParser

    constructor(p: ExpressionParser)
      ensures parser == p
    {
      parser := p;
    }

    /** Finds `name(arg) = rhs`, records name and argument, and returns `rhs`; `threw` reports a TypeError. */
    method Visit(expr: AM) returns (rhs: Option<AM>, threw: bool)
      modifies parser`functionName, parser`functionArg, parser`stack, parser`error
      decreases expr
      ensures parser.State() == Run(old(parser.State()), DeclarationOf(old(parser.functionName), old(parser.functionArg), expr).events)
      ensures rhs == DeclarationOf(old(parser.functionName), old(parser.functionArg), expr).rhs
      ensures threw == Halts(DeclarationOf(old(parser.functionName), old(parser.functionArg), expr).events)
    {
      ghost var s0 := parser.State();
      if Truthy(parser.functionName) || Truthy(parser.functionArg) {
        parser.Abort("duplicate function definition");
        RunOne(s0, Abort("duplicate function definition"));
        return None, false;
      }
      if StartsWith(expr.ttype, "expression") && expr.exprs.Present? && |expr.exprs.items| == 1 {
        rhs, threw := Visit(expr.exprs.items[0]);
        return;
      }
      if expr.exprs.Absent? || |expr.exprs.items| < 2 {
        parser.Abort("empty equation");
        RunOne(s0, Abort("empty equation"));
        return None, false;
      }
      var x0, x1 := expr.exprs.items[0], expr.exprs.items[1];
      if x0.ttype == "unary" {
        rhs, threw := VisitUnaryHead(x0, x1);
        return;
      } else if expr.ttype == "expression" && |expr.exprs.items| == 2 {
        if x0.ttype == "literal" || x0.ttype == "greek" {
          rhs, threw := VisitLetterHead(x0, x1);
          return;
        }
        parser.Abort("illegal function name");
        RunOne(s0, Abort("illegal function name"));
        return None, false;
      }
      parser.Abort("unable to find function declaration");
      RunOne(s0, Abort("unable to find function declaration"));
      return None, false;
    }

    /** The declaration `op(arg) = rhs` headed by a unary operator. */
    method VisitUnaryHead(x0: AM, x1: AM) returns (rhs: Option<AM>, threw: bool)
      modifies parser`functionName, parser`functionArg, parser`stack, parser`error
      ensures parser.State() == Run(old(parser.State()), UnaryHeadDeclaration(x0, x1).events)
      ensures rhs == UnaryHeadDeclaration(x0, x1).rhs
      ensures threw == Halts(UnaryHeadDeclaration(x0, x1).events)
    {
      ghost var s0 := parser.State();
      if !(x0.arg.Some? && x0.arg.value.ttype == "bracket" && IsEquation(x1)) {
        parser.Abort("unable to find function declaration");
        RunOne(s0, Abort("unable to find function declaration"));
        return None, false;
      }
      if x0.arg.value.middle.None? {
        RunOne(s0, Throw);
        return None, true;
      }
      var arg := x0.arg.value.middle.value.tex;
      parser.functionArg := Some(arg);
      RunOne(s0, SetArg(arg));
      if x0.op.None? {
        RunAppend(s0, [SetArg(arg)], [Throw]);
        RunOne(parser.State(), Throw);
        return None, true;
      }
      parser.functionName := Some(x0.op.value.token);
      RunAppend(s0, [SetArg(arg)], [SetName(x0.op.value.token)]);
      RunOne(Step(s0, SetArg(arg)), SetName(x0.op.value.token));
      return Some(x1.exprs.items[1]), false;
    }

    /** The declaration `name(arg) = rhs` headed by a literal or greek letter. */
    method VisitLetterHead(x0: AM, x1: AM) returns (rhs: Option<AM>, threw: bool)
      modifies parser`functionName, parser`functionArg, parser`stack, parser`error
      ensures parser.State() == Run(old(parser.State()), LetterHeadDeclaration(x0, x1).events)
      ensures rhs == LetterHeadDeclaration(x0, x1).rhs
      ensures threw == Halts(LetterHeadDeclaration(x0, x1).events)
    {
      ghost var s0 := parser.State();
      if !(x1.exprs.Present? && |x1.exprs.items| == 2 && x1.exprs.items[0].ttype == "bracket" && IsEquation(x1.exprs.items[1])) {
        parser.Abort("unable to find function declaration");
        RunOne(s0, Abort("unable to find function declaration"));
        return None, false;
      }
      parser.functionName := Some(x0.tex);
      RunOne(s0, SetName(x0.tex));
      if x1.exprs.items[0].middle.None? {
        RunAppend(s0, [SetName(x0.tex)], [Throw]);
        RunOne(parser.State(), Throw);
        return None, true;
      }
      var m := x1.exprs.items[0].middle.value;
      parser.functionArg := Some(m.tex);
      RunAppend(s0, [SetName(x0.tex)], [SetArg(m.tex)]);
      RunOne(Step(s0, SetName(x0.tex)), SetArg(m.tex));
      return Some(x1.exprs.items[1].exprs.items[1]), false;
    }
  }

  class FunctionDefinitionVisitor {
    const parser: ExpressionParser
    const host: Host

    constructor(p: ExpressionParser, h: Host)
      ensures parser == p && host == h
    {
      parser := p;
      host := h;
    }

    /** Pushes one object onto the parser's stack. */
    method VisitObject(obj: StackObject)
      modifies parser`stack
      ensures parser.stack == old(parser.stack) + [obj]
    {
      parser.stack := parser.stack + [obj];
    }

    /** Pushes a literal as NUMBER when `parseFloat` reads a number from it, otherwise as IDENTIFIER. */
    method VisitLiteral(literal: string)
      modifies parser`stack
      ensures parser.stack == old(parser.stack)
        + [StackObject(literal, if host.parsesAsNumber(literal) then NUMBER else IDENTIFIER)]
    {
      if !host.parsesAsNumber(literal) {
        VisitObject(StackObject(literal, IDENTIFIER));
      } else {
        VisitObject(StackObject(literal, NUMBER));
      }
    }

    method Visit(expr: AM, fuel: nat) returns (halted: bool)
      modifies parser`functionName, parser`functionArg, parser`stack, parser`error
      decreases fuel, Size(expr), 4
      ensures parser.State() == Run(old(parser.State()), VisitTrace(host, expr, fuel))
      ensures halted == Halts(VisitTrace(host, expr, fuel))
    {
      ghost var s0 := parser.State();
      if StartsWith(expr.ttype, "expression") && expr.exprs.Present? && |expr.exprs.items| == 1 {
        halted := Visit(expr.exprs.items[0], fuel);
        return;
      }
      if StartsWith(expr.ttype, "expression") && expr.exprs.Present? && |expr.exprs.items| == 2
         && (expr.exprs.items[0].ttype == "arbitrary_constant" || expr.exprs.items[0].ttype == "other_constant") {
        halted := VisitConstantPrefix(expr, fuel);
        return;
      }
      if expr.dash {
        halted := VisitDash(expr, fuel);
        return;
      }
      if expr.ttype == "fraction" || (expr.ttype == "binary" && expr.op.Some? && expr.op.value.tex == "\\frac") {
        if expr.numerator.Some? && expr.denominator.Some? {
          halted := VisitFraction(expr.numerator, expr.denominator, fuel, Size(expr));
        } else {
          halted := VisitFraction(expr.arg1, expr.arg2, fuel, Size(expr));
        }
        return;
      }
      if (expr.ttype == "literal" || expr.ttype == "greek") && (expr.exprs.Absent? || |expr.exprs.items| == 0) {
        VisitLiteral(expr.tex);
        RunOne(s0, Push(LiteralObject(host, expr.tex)));
        return false;
      }
      if expr.ttype == "intermediate" {
        halted := VisitSubsup(expr, fuel);
        return;
      }
      if expr.ttype == "bracket" {
        halted := VisitBracket(expr, fuel);
        return;
      }
      if expr.exprs.Present? && |expr.exprs.items| == 2 {
        halted := VisitBranch(expr, fuel);
        return;
      }
      if expr.ttype == "unary" {
        halted := VisitUnaryOperation(expr, fuel);
        return;
      }
      return false;
    }

    /** An expression led by a constant operator: the operand, then the constant as an operator. */
    method VisitConstantPrefix(expr: AM, fuel: nat) returns (halted: bool)
      requires expr.exprs.Present? && |expr.exprs.items| == 2
      modifies parser`functionName, parser`functionArg, parser`stack, parser`error
      decreases fuel, Size(expr), 3
      ensures var t := VisitTrace(host, expr.exprs.items[1], fuel) + [Push(Op(expr.exprs.items[0].tex))];
        parser.State() == Run(old(parser.State()), t) && halted == Halts(t)
    {
      ghost var s0 := parser.State();
      ghost var a := VisitTrace(host, expr.exprs.items[1], fuel);
      halted := Visit(expr.exprs.items[1], fuel);
      RunAppend(s0, a, [Push(Op(expr.exprs.items[0].tex))]);
      if halted {
        return;
      }
      VisitObject(Op(expr.exprs.items[0].tex));
      RunOne(Run(s0, a), Push(Op(expr.exprs.items[0].tex)));
    }

    /** A bracket: only round brackets are accepted, and their contents are visited. */
    method VisitBracket(expr: AM, fuel: nat) returns (halted: bool)
      modifies parser`functionName, parser`functionArg, parser`stack, parser`error
      decreases fuel, Size(expr), 3
      ensures var t :=
          if expr.left.None? || expr.right.None? || expr.middle.None? then [Abort("incomplete bracket expression")]
          else if expr.left.value.tex == "(" && expr.right.value.tex == ")" then VisitTrace(host, expr.middle.value, fuel)
          else [Abort("unrecognized bracket type")];
        parser.State() == Run(old(parser.State()), t) && halted == Halts(t)
    {
      ghost var s0 := parser.State();
      if expr.left.None? || expr.right.None? || expr.middle.None? {
        parser.Abort("incomplete bracket expression");
        RunOne(s0, Abort("incomplete bracket expression"));
        return false;
      }
      if expr.left.value.tex == "(" && expr.right.value.tex == ")" {
        halted := Visit(expr.middle.value, fuel);
      } else {
        parser.Abort("unrecognized bracket type");
        RunOne(s0, Abort("unrecognized bracket type"));
        halted := false;
      }
    }

    /** A dashed node: its expression, then the operator `-`. */
    method VisitDash(expr: AM, fuel: nat) returns (halted: bool)
      requires expr.dash
      modifies parser`functionName, parser`functionArg, parser`stack, parser`error
      decreases fuel, Size(expr), 3
      ensures var t := (if expr.expression.Some? then VisitTrace(host, expr.expression.value, fuel) else [Throw]) + [Push(Op("-"))];
        parser.State() == Run(old(parser.State()), t) && halted == Halts(t)
    {
      ghost var s0 := parser.State();
      ghost var a := if expr.expression.Some? then VisitTrace(host, expr.expression.value, fuel) else [Throw];
      RunAppend(s0, a, [Push(Op("-"))]);
      if expr.expression.None? {
        RunOne(s0, Throw);
        return true;
      }
      halted := Visit(expr.expression.value, fuel);
      if halted {
        return;
      }
      VisitObject(Op("-"));
      RunOne(Run(s0, a), Push(Op("-")));
    }

    /** The two parts of a fraction, then the operator `/`. */
    method VisitFraction(num: Option<AM>, den: Option<AM>, fuel: nat, ghost bound: nat) returns (halted: bool)
      requires OptSize(num) < bound && OptSize(den) < bound
      modifies parser`functionName, parser`functionArg, parser`stack, parser`error
      decreases fuel, bound, 3
      ensures var t := FractionPartTrace(host, num, fuel) + FractionPartTrace(host, den, fuel) + [Push(Op("/"))];
        parser.State() == Run(old(parser.State()), t) && halted == Halts(t)
    {
      ghost var s0 := parser.State();
      ghost var a := FractionPartTrace(host, num, fuel);
      ghost var b := FractionPartTrace(host, den, fuel);
      RunAppend(s0, a + b, [Push(Op("/"))]);
      RunAppend(s0, a, b);
      halted := VisitFractionPart(num, fuel);
      if halted {
        return;
      }
      halted := VisitFractionPart(den, fuel);
      if halted {
        return;
      }
      VisitObject(Op("/"));
      RunOne(Run(s0, a + b), Push(Op("/")));
    }

    method VisitBranch(expr: AM, fuel: nat) returns (halted: bool)
      modifies parser`functionName, parser`functionArg, parser`stack, parser`error
      decreases fuel, Size(expr), 3
      ensures parser.State() == Run(old(parser.State()), BranchTrace(host, expr, fuel))
      ensures halted == Halts(BranchTrace(host, expr, fuel))
    {
      ghost var s0 := parser.State();
      if expr.exprs.Absent? || |expr.exprs.items| < 2 {
        parser.Abort("not a branch expression");
        RunOne(s0, Abort("not a branch expression"));
        return false;
      }
      var l, r := expr.exprs.items[0], expr.exprs.items[1];
      if !OperandKind(l.ttype) {
        return false;
      }
      if r.ttype == "expression" {
        if r.exprs.Absent? || |r.exprs.items| < 2 {
          RunOne(s0, Throw);
          return true;
        }
        if StartsWith(r.exprs.items[1].tex, "+") || StartsWith(r.exprs.items[1].tex, "-") {
          halted := VisitSignedTail(l, r.exprs.items[0], r.exprs.items[1], fuel, Size(expr));
          return;
        }
      } else if r.ttype == "negative_expression" {
        halted := VisitNegative(l, r, fuel, Size(expr));
        return;
      }
      if (l.ttype == "literal" || l.ttype == "greek") && r.tex == "i" {
        halted := VisitImaginary(l.tex);
        return;
      }
      if r.exprs.Present? && |r.exprs.items| == 2 && r.exprs.items[0].ttype == "arbitrary_constant" {
        halted := VisitBinaryOperation(l, r.exprs.items[0].tex, r.exprs.items[1], fuel);
        return;
      }
      halted := VisitBinaryOperation(l, "\\cdot", r, fuel);
    }

    /** l times r0, then the signed term r1 that follows r0. */
    method VisitSignedTail(l: AM, r0: AM, r1: AM, fuel: nat, ghost bound: nat) returns (halted: bool)
      requires Size(l) + Size(r0) < bound && Size(r1) < bound
      modifies parser`functionName, parser`functionArg, parser`stack, parser`error
      decreases fuel, bound, 2
      ensures var t := BinaryTrace(host, l, "\\cdot", r0, fuel) + VisitTrace(host, r1, fuel);
        parser.State() == Run(old(parser.State()), t) && halted == Halts(t)
    {
      ghost var s0 := parser.State();
      ghost var a := BinaryTrace(host, l, "\\cdot", r0, fuel);
      RunAppend(s0, a, VisitTrace(host, r1, fuel));
      halted := VisitBinaryOperation(l, "\\cdot", r0, fuel);
      if halted {
        return;
      }
      halted := Visit(r1, fuel);
    }

    /** l followed by a negated expression: l minus its operand, or a TypeError when it has none. */
    method VisitNegative(l: AM, r: AM, fuel: nat, ghost bound: nat) returns (halted: bool)
      requires Size(l) + Size(r) < bound
      modifies parser`functionName, parser`functionArg, parser`stack, parser`error
      decreases fuel, bound, 2
      ensures var t := if r.expression.Some? then BinaryTrace(host, l, "-", r.expression.value, fuel)
                       else VisitTrace(host, l, fuel) + [Throw];
        parser.State() == Run(old(parser.State()), t) && halted == Halts(t)
    {
      if r.expression.Some? {
        halted := VisitBinaryOperation(l, "-", r.expression.value, fuel);
      } else {
        ghost var s0 := parser.State();
        ghost var a := VisitTrace(host, l, fuel);
        RunAppend(s0, a, [Throw]);
        halted := Visit(l, fuel);
        if !halted {
          RunOne(parser.State(), Throw);
        }
        halted := true;
      }
    }

    /** A literal next to `i`: the literal, the literal `i`, then `\cdot`. */
    method VisitImaginary(tex: string) returns (halted: bool)
      modifies parser`stack
      ensures var t := [Push(if !host.parsesAsNumber(tex) then StackObject(tex, IDENTIFIER) else LiteralObject(host, tex)),
                        Push(LiteralObject(host, "i")), Push(Op("\\cdot"))];
        parser.State() == Run(old(parser.State()), t) && halted == Halts(t)
    {
      ghost var s0 := parser.State();
      ghost var o := if !host.parsesAsNumber(tex) then StackObject(tex, IDENTIFIER) else LiteralObject(host, tex);
      ghost var t := [Push(o), Push(LiteralObject(host, "i")), Push(Op("\\cdot"))];
      if !host.parsesAsNumber(tex) {
        VisitObject(StackObject(tex, IDENTIFIER));
      } else {
        VisitLiteral(tex);
      }
      VisitLiteral("i");
      VisitObject(Op("\\cdot"));
      assert Clean(t);
      RunClean(s0, t);
      assert Emitted(t) == [o, LiteralObject(host, "i"), Op("\\cdot")] by {
        assert t[1..][1..][1..] == [];
        assert Emitted(t[1..][1..]) == [Op("\\cdot")];
        assert Emitted(t[1..]) == [LiteralObject(host, "i"), Op("\\cdot")];
      }
      halted := false;
    }

    method VisitBinaryOperation(l: AM, morpheme: string, r: AM, fuel: nat) returns (halted: bool)
      modifies parser`functionName, parser`functionArg, parser`stack, parser`error
      decreases fuel, Size(l) + Size(r), 2
      ensures parser.State() == Run(old(parser.State()), BinaryTrace(host, l, morpheme, r, fuel))
      ensures halted == Halts(BinaryTrace(host, l, morpheme, r, fuel))
    {
      ghost var s0 := parser.State();
      ghost var a := VisitTrace(host, l, fuel);
      ghost var b := VisitTrace(host, r, fuel);
      RunAppend(s0, a + b, [Push(Op(morpheme))]);
      RunAppend(s0, a, b);
      halted := Visit(l, fuel);
      if halted {
        return;
      }
      halted := Visit(r, fuel);
      if halted {
        return;
      }
      VisitObject(Op(morpheme));
      RunOne(Run(s0, a + b), Push(Op(morpheme)));
    }

    method VisitUnaryOperation(expr: AM, fuel: nat) returns (halted: bool)
      modifies parser`functionName, parser`functionArg, parser`stack, parser`error
      decreases fuel, Size(expr), 3
      ensures parser.State() == Run(old(parser.State()), UnaryTrace(host, expr, fuel))
      ensures halted == Halts(UnaryTrace(host, expr, fuel))
    {
      ghost var s0 := parser.State();
      if expr.arg.None? || expr.op.None? {
        parser.Abort("not a unary operation");
        RunOne(s0, Abort("not a unary operation"));
        return false;
      }
      ghost var a := VisitTrace(host, expr.arg.value, fuel);
      RunAppend(s0, a, [Push(Op(expr.op.value.token))]);
      halted := Visit(expr.arg.value, fuel);
      if halted {
        return;
      }
      VisitObject(Op(expr.op.value.token));
      RunOne(Run(s0, a), Push(Op(expr.op.value.token)));
    }

    method VisitSubsup(expr: AM, fuel: nat) returns (halted: bool)
      modifies parser`functionName, parser`functionArg, parser`stack, parser`error
      decreases fuel, Size(expr), 3
      ensures parser.State() == Run(old(parser.State()), SubsupTrace(host, expr, fuel))
      ensures halted == Halts(SubsupTrace(host, expr, fuel))
    {
      ghost var s0 := parser.State();
      if expr.subsup.None? {
        parser.Abort("not a subscript/superscript expression");
        RunOne(s0, Abort("not a subscript/superscript expression"));
        return false;
      }
      var ss := expr.subsup.value;
      if ss.sup.Some? {
        ghost var a := if expr.expression.Some? then VisitTrace(host, expr.expression.value, fuel) else [Throw];
        var exponent := ReplaceFirst(ReplaceFirst(ss.sup.value.tex, '{'), '}');
        var parsed := FirstParsed(host, exponent);
        ghost var b := match parsed
          case None => [Abort("incomplete superscript")]
          case Some(y) => if fuel == 0 then [Exhausted] else VisitTrace(host, y, fuel - 1) + [Push(Op("^"))];
        RunAppend(s0, a, b);
        if expr.expression.None? {
          RunOne(s0, Throw);
          return true;
        }
        halted := Visit(expr.expression.value, fuel);
        if halted {
          return;
        }
        halted := VisitExponent(parsed, fuel);
        return;
      } else if ss.sub.Some? {
        if expr.expression.None? {
          RunOne(s0, Throw);
          return true;
        }
        if expr.expression.value.ttype == "literal" {
          VisitLiteral(expr.expression.value.tex + "_" + ss.sub.value.tex);
          RunOne(s0, Push(LiteralObject(host, expr.expression.value.tex + "_" + ss.sub.value.tex)));
          return false;
        } else {
          parser.Abort("illegal subscript");
          RunOne(s0, Abort("illegal subscript"));
          return false;
        }
      }
      return false;
    }

    /** The re-parsed exponent of a superscript, then `^`; a failed re-parse aborts. */
    method VisitExponent(parsed: Option<AM>, fuel: nat) returns (halted: bool)
      modifies parser`functionName, parser`functionArg, parser`stack, parser`error
      decreases fuel, 0, 3
      ensures var t := match parsed
          case None => [Abort("incomplete superscript")]
          case Some(y) => if fuel == 0 then [Exhausted] else VisitTrace(host, y, fuel - 1) + [Push(Op("^"))];
        parser.State() == Run(old(parser.State()), t) && halted == Halts(t)
    {
      ghost var s0 := parser.State();
      if parsed.None? {
        parser.Abort("incomplete superscript");
        RunOne(s0, Abort("incomplete superscript"));
        return false;
      }
      if fuel == 0 {
        RunOne(s0, Exhausted);
        return true;
      }
      ghost var a := VisitTrace(host, parsed.value, fuel - 1);
      RunAppend(s0, a, [Push(Op("^"))]);
      halted := Visit(parsed.value, fuel - 1);
      if halted {
        return;
      }
      VisitObject(Op("^"));
      RunOne(Run(s0, a), Push(Op("^")));
    }

    method VisitFractionPart(part: Option<AM>, fuel: nat) returns (halted: bool)
      modifies parser`functionName, parser`functionArg, parser`stack, parser`error
      decreases fuel, OptSize(part), 5
      ensures parser.State() == Run(old(parser.State()), FractionPartTrace(host, part, fuel))
      ensures halted == Halts(FractionPartTrace(host, part, fuel))
    {
      ghost var s0 := parser.State();
      if part.None? {
        parser.Abort("incomplete fraction");
        RunOne(s0, Abort("incomplete fraction"));
        return false;
      }
      var x := part.value;
      if x.ttype == "literal" {
        halted := Visit(x, fuel);
        return;
      }
      var parsed := FirstParsed(host, x.tex);
      if parsed.None? {
        parser.Abort("incomplete fraction");
        RunOne(s0, Abort("incomplete fraction"));
        return false;
      }
      if fuel == 0 {
        RunOne(s0, Exhausted);
        return true;
      }
      halted := Visit(parsed.value, fuel - 1);
    }
  }
}
