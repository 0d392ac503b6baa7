/**
 * The MathML input path of the user interface (ui/src/input/MathML.ts).
 *
 * MathMLLexer turns a MathML `mrow` element into an MLNode tree: rows
 * become PAREN nodes, `mn`/`mi`/`mo` leaves keep their text, brackets are
 * dropped (the rows around them carry the grouping), `msup` and `mfrac`
 * become PAREN nodes of three children. MathMLParser walks that tree and
 * pushes a postfix token stack; `error` empties the stack and records the
 * message, and the walk goes on after it.
 *
 * The lexer is a set of functions; the parser is a class whose
 * visitChildren loop is proved against StepTrace (what one turn of the loop
 * pushes and where it resumes) and LoopTrace (all turns).
 */
module MathML {
  import opened Wrappers
  import opened JsText

  /** A DOM node as the lexer reads it. */
  datatype XNode = XNode(nodeName: string, textContent: string, childNodes: seq<XNode>)

  datatype MLNodeType = NUMBER | IDENTIFIER | PAREN | BINARY | FUNCTION_APPLY | ROOT

  /** MLNode without its `parent` back-pointer, which nothing reads. */
  datatype MLNode = MLNode(xmlName: string, ntype: MLNodeType, contents: Option<string>, children: seq<MLNode>)

  /** What the lexer throws: the string the constructor throws, or a TypeError. */
  datatype LexError = Thrown(msg: string) | TypeError

  /** U+2061, the invisible function application MathML puts between `sin` and its argument. */
  const FUNCTION_APPLICATION: string := "\U{2061}"

  /** U+2212, the minus sign. */
  const MINUS_SIGN: string := "\U{2212}"

  predicate IsLeafName(name: string) {
    name == "mn" || name == "mi" || name == "mo"
  }

  /** simpleTypeFromNode, on the names it accepts. */
  function SimpleType(name: string): MLNodeType
    requires IsLeafName(name)
  {
    if name == "mn" then NUMBER else if name == "mi" then IDENTIFIER else BINARY
  }

  // ---------------------------------------------------------------------
  // MathMLLexer
  // ---------------------------------------------------------------------

  /**
   * visitLeaf: a bracket leaf is dropped; U+2061 inside a row is a
   * function application; any other leaf keeps its name, its simple type
   * and its text (no text at all for an empty one).
   */
  function LexLeaf(node: XNode, hasParent: bool): (r: Option<MLNode>)
    requires IsLeafName(node.nodeName)
    ensures node.textContent == "(" || node.textContent == ")" <==> r.None?
    ensures r.Some? && r.value.ntype == FUNCTION_APPLY <==>
      r.Some? && hasParent && node.nodeName == "mo" && node.textContent == FUNCTION_APPLICATION
    ensures r.Some? && r.value.ntype != FUNCTION_APPLY ==>
      r.value == MLNode(node.nodeName, SimpleType(node.nodeName),
                        if node.textContent == "" then None else Some(node.textContent), [])
  {
    if node.textContent == "(" || node.textContent == ")" then None
    else if hasParent && node.nodeName == "mo" && node.textContent == FUNCTION_APPLICATION then
      Some(MLNode("mo", FUNCTION_APPLY, None, []))
    else
      Some(MLNode(node.nodeName, SimpleType(node.nodeName), if node.textContent == "" then None else Some(node.textContent), []))
  }

  /** `node.childNodes[k]`, undefined past the end. */
  function ChildNode(node: XNode, k: nat): Option<XNode> {
    if k < |node.childNodes| then Some(node.childNodes[k]) else None
  }

  /** A node that is not itself a bracket leaf. */
  predicate NotBracket(n: MLNode) {
    n.contents != Some("(") && n.contents != Some(")")
  }

  /** A tree in which no node, at any depth, is a bracket leaf. */
  predicate NoBracket(n: MLNode)
    decreases n
  {
    NotBracket(n) && forall k :: 0 <= k < |n.children| ==> NoBracket(n.children[k])
  }

  /** A binary node `[left, op, right]` with the given operator text. */
  function Triple(left: MLNode, op: string, right: MLNode): MLNode {
    MLNode("", PAREN, None, [left, MLNode("", BINARY, Some(op), []), right])
  }

  /**
   * visitNode. `show` is JavaScript's conversion of a DOM node to a string,
   * which the `msub` case concatenates.
   */
  function LexNode(node: XNode, hasParent: bool, show: XNode -> string): (r: Result<Option<MLNode>, LexError>)
    ensures r.Ok? && r.value.Some? ==> NoBracket(r.value.value)
    decreases node, 1, 0
  {
    if node.nodeName == "mrow" then
      match LexRow(node, show)
      case Err(e) => Err(e)
      case Ok(row) => Ok(Some(row))
    else if IsLeafName(node.nodeName) then
      Ok(LexLeaf(node, hasParent))
    else if node.nodeName == "msub" && ChildNode(node, 0).None? then
      Err(TypeError)
    else if node.nodeName == "msub" && node.childNodes[0].nodeName == "mi" then
      var second := if |node.childNodes| > 1 then show(node.childNodes[1]) else "undefined";
      var text := show(node.childNodes[0]) + "_" + second;
      assert text[|show(node.childNodes[0])|] == '_';
      Ok(Some(MLNode("", IDENTIFIER, Some(text), [])))
    else if node.nodeName == "msup" || node.nodeName == "mfrac" then
      if |node.childNodes| < 2 then Err(TypeError)
      else
        match LexNode(node.childNodes[0], false, show)
        case Err(e) => Err(e)
        case Ok(first) =>
          match LexNode(node.childNodes[1], false, show)
          case Err(e) => Err(e)
          case Ok(second) =>
            if first.Some? && second.Some? then
              Ok(Some(Triple(first.value, if node.nodeName == "msup" then "^" else "/", second.value)))
            else Ok(None)
    else
      Ok(None)
  }

  /** visitMRow: a PAREN node of the children that were not dropped, in order. */
  function LexRow(node: XNode, show: XNode -> string): (r: Result<MLNode, LexError>)
    ensures r.Ok? ==> r.value.xmlName == "mrow" && r.value.ntype == PAREN && r.value.contents.None?
    ensures r.Ok? ==> NoBracket(r.value)
    decreases node, 0, |node.childNodes| + 1
  {
    match LexChildren(node, 0, show)
    case Err(e) => Err(e)
    case Ok(kids) => Ok(MLNode("mrow", PAREN, None, kids))
  }

  function LexChildren(node: XNode, i: nat, show: XNode -> string): (r: Result<seq<MLNode>, LexError>)
    ensures r.Ok? ==> forall k :: 0 <= k < |r.value| ==> NoBracket(r.value[k])
    decreases node, 0, |node.childNodes| - i
  {
    if i >= |node.childNodes| then Ok([])
    else
      match LexNode(node.childNodes[i], true, show)
      case Err(e) => Err(e)
      case Ok(o) =>
        match LexChildren(node, i + 1, show)
        case Err(e) => Err(e)
        case Ok(rest) => Ok((if o.Some? then [o.value] else []) + rest)
  }

  /** The lexer: its constructor refuses any root but `mrow`; visitMath lexes the root row. */
  function Lex(root: XNode, show: XNode -> string): (r: Result<MLNode, LexError>)
    ensures root.nodeName != "mrow" ==> r == Err(Thrown("not an mrow node!"))
    ensures r.Ok? ==> r.value.ntype == PAREN && NoBracket(r.value)
  {
    if root.nodeName != "mrow" then Err(Thrown("not an mrow node!"))
    else LexRow(root, show)
  }

  /**
   * A superscript or a fraction whose two parts both survive becomes the
   * three-child PAREN node [base, `^`, exponent] or [numerator, `/`, denominator].
   */
  lemma ScriptsBecomeTriples(node: XNode, show: XNode -> string, a: MLNode, b: MLNode)
    requires node.nodeName == "msup" || node.nodeName == "mfrac"
    requires |node.childNodes| >= 2
    requires LexNode(node.childNodes[0], false, show) == Ok(Some(a))
    requires LexNode(node.childNodes[1], false, show) == Ok(Some(b))
    ensures LexNode(node, true, show) == Ok(Some(Triple(a, if node.nodeName == "msup" then "^" else "/", b)))
    ensures LexNode(node, true, show).value.value.children == [a, MLNode("", BINARY, Some(if node.nodeName == "msup" then "^" else "/"), []), b]
  {
  }

  // ---------------------------------------------------------------------
  // MathMLParser as traces
  // ---------------------------------------------------------------------

  datatype ObjType = NUMBER_OBJ | IDENTIFIER_OBJ | OPERATOR_OBJ | FXNCALL_OBJ

  /** A stack entry; `value` is absent where the source pushes `node.contents!` of a node without text. */
  datatype StackObject = StackObject(value: Option<string>, otype: ObjType)

  function Op(s: string): StackObject { StackObject(Some(s), OPERATOR_OBJ) }

  datatype Event = Push(obj: StackObject) | Raise(msg: string)

  datatype ParserState = ParserState(stack: seq<StackObject>, parseError: Option<string>)

  function Step(s: ParserState, ev: Event): ParserState {
    match ev
    case Push(o) => s.(stack := s.stack + [o])
    case Raise(m) => ParserState([], Some(m))
  }

  function Run(s: ParserState, evs: seq<Event>): ParserState
    decreases |evs|
  {
    if evs == [] then s else Run(Step(s, evs[0]), evs[1..])
  }

  lemma {:induction false} RunAppend(s: ParserState, a: seq<Event>, b: seq<Event>)
    ensures Run(s, a + b) == Run(Run(s, a), b)
    decreases |a|
  {
    if a == [] {
      assert a + b == b;
    } else {
      assert (a + b)[1..] == a[1..] + b;
      RunAppend(Step(s, a[0]), a[1..], b);
    }
  }

  /** Concatenation of two traces; None is the walk reaching the unguarded `next.type`. */
  function Cat(a: Option<seq<Event>>, b: Option<seq<Event>>): (r: Option<seq<Event>>)
    ensures r.Some? <==> a.Some? && b.Some?
    ensures r.Some? ==> r.value == a.value + b.value
  {
    if a.Some? && b.Some? then Some(a.value + b.value) else None
  }

  /** isExpression */
  predicate IsExpression(n: MLNode) {
    n.ntype == NUMBER || (n.ntype == IDENTIFIER && n.contents.Some? && Utf16Length(n.contents.value) == 1) || n.ntype == PAREN
  }

  function Child(node: MLNode, k: int): Option<MLNode> {
    if 0 <= k < |node.children| then Some(node.children[k]) else None
  }

  /** visitNode: a number or identifier pushes itself, anything else visits its children. */
  function NodeTrace(node: MLNode): Option<seq<Event>>
    decreases node, 2, 0, 0
  {
    match node.ntype
    case NUMBER => Some([Push(StackObject(node.contents, NUMBER_OBJ))])
    case IDENTIFIER => Some([Push(StackObject(node.contents, IDENTIFIER_OBJ))])
    case _ => ChildrenTrace(node)
  }

  /** visitChildren: nothing for no child, the one child alone, otherwise the loop. */
  function ChildrenTrace(node: MLNode): Option<seq<Event>>
    decreases node, 1, 0, 0
  {
    if |node.children| == 0 then Some([])
    else if |node.children| == 1 then NodeTrace(node.children[0])
    else LoopTrace(node, 0)
  }

  /** The loop of visitChildren from index `i` on. */
  function LoopTrace(node: MLNode, i: nat): Option<seq<Event>>
    decreases node, 0, |node.children| - i, 2
  {
    if i >= |node.children| then Some([])
    else
      var turn := StepTrace(node, i);
      Cat(turn.events, LoopTrace(node, turn.next))
  }

  /** One turn of the loop: what it does and the index at which the loop goes on. */
  datatype Turn = Turn(events: Option<seq<Event>>, next: nat)

  /** `name`, U+2061, `argument`, with the argument present. */
  predicate AppliesFunction(node: MLNode, i: nat) {
    i + 2 < |node.children| && Truthy(node.children[i].contents) && node.children[i + 1].ntype == FUNCTION_APPLY
  }

  function StepTrace(node: MLNode, i: nat): (r: Turn)
    requires i < |node.children|
    ensures r.next > i
    decreases node, 0, |node.children| - i, 1
  {
    var n := node.children[i];
    if AppliesFunction(node, i) then
      Turn(Cat(NodeTrace(node.children[i + 2]), Some([Push(Op(n.contents.value))])), i + 3)
    else if IsExpression(n) then
      ExpressionTurn(node, i)
    else if n.ntype == BINARY && Truthy(n.contents) then
      BinaryTurn(node, i)
    else
      Turn(ChildrenTrace(n), i + 1)
  }

  /** The index after the run of expressions that starts at `j`. */
  function ProductEnd(node: MLNode, j: nat): (r: nat)
    ensures r >= j
    decreases |node.children| - j
  {
    if j < |node.children| && IsExpression(node.children[j]) then ProductEnd(node, j + 1) else j
  }

  /** The implied product from `j`: each further expression, then `\cdot`. */
  function ProductTrace(node: MLNode, j: nat): Option<seq<Event>>
    decreases node, 0, |node.children| - j, 0
  {
    if j < |node.children| && IsExpression(node.children[j]) then
      Cat(Cat(NodeTrace(node.children[j]), Some([Push(Op("\\cdot"))])), ProductTrace(node, j + 1))
    else Some([])
  }

  /** One step of the implied product: the expression at `j`, `\\cdot`, then the rest. */
  lemma ProductUnfold(node: MLNode, j: nat)
    requires j < |node.children| && IsExpression(node.children[j])
    requires ProductTrace(node, j).Some?
    ensures NodeTrace(node.children[j]).Some? && ProductTrace(node, j + 1).Some?
    ensures ProductTrace(node, j).value == NodeTrace(node.children[j]).value + [Push(Op("\\cdot"))] + ProductTrace(node, j + 1).value
    ensures ProductEnd(node, j) == ProductEnd(node, j + 1)
  {
  }

  /** Running the events done so far, one expression's events and then `\\cdot`. */
  lemma ProductDone(s0: ParserState, done: seq<Event>, t: seq<Event>)
    ensures Step(Run(s0, done + t), Push(Op("\\cdot"))) == Run(s0, done + t + [Push(Op("\\cdot"))])
  {
    assert [Push(Op("\\cdot"))][1..] == [];
    RunAppend(s0, done + t, [Push(Op("\\cdot"))]);
  }

  /**
   * An expression at `i`: deferred when an operator follows, merged with a
   * following `i` into an imaginary number, the start of an implied product
   * when an expression follows. None when it is the last child, where the
   * source reads the type of an undefined neighbour.
   */
  function ExpressionTurn(node: MLNode, i: nat): (r: Turn)
    requires i < |node.children| && IsExpression(node.children[i])
    ensures r.next > i
    decreases node, 0, |node.children| - i, 0
  {
    var n := node.children[i];
    if i + 1 >= |node.children| then Turn(None, i + 1)
    else
      var next := node.children[i + 1];
      if next.ntype == BINARY then Turn(Some([]), i + 1)
      else if n.ntype == NUMBER && next.ntype == IDENTIFIER && next.contents == Some("i") then
        Turn(Some([Push(StackObject(Some(Show(n.contents) + "i"), NUMBER_OBJ))]), i + 2)
      else if IsExpression(next) then
        Turn(Cat(NodeTrace(n), ProductTrace(node, i + 1)), ProductEnd(node, i + 1) + 1)
      else
        Turn(ChildrenTrace(n), i + 1)
  }

  /**
   * An operator at `i`: an error when nothing follows it, a negation when it
   * is a leading minus sign, a postfix operation between two expressions.
   */
  function BinaryTurn(node: MLNode, i: nat): (r: Turn)
    requires i < |node.children| && Truthy(node.children[i].contents)
    ensures r.next > i
    decreases node, 0, |node.children| - i, 0
  {
    var n := node.children[i];
    var op := n.contents.value;
    if i + 1 >= |node.children| then
      Turn(Cat(Some([Raise("incomplete binary expression")]), ChildrenTrace(n)), i + 1)
    else if IsExpression(node.children[i + 1]) && i == 0 && op == MINUS_SIGN then
      Turn(Cat(NodeTrace(node.children[i + 1]), Some([Push(StackObject(Some("-1"), NUMBER_OBJ)), Push(Op("\\cdot"))])), i + 2)
    else if IsExpression(node.children[i + 1]) && i > 0 && IsExpression(node.children[i - 1]) then
      Turn(Cat(Cat(NodeTrace(node.children[i - 1]), NodeTrace(node.children[i + 1])), Some([Push(Op(op))])), i + 2)
    else
      Turn(ChildrenTrace(n), i + 1)
  }

  // ---------------------------------------------------------------------
  // Properties of the traces
  // ---------------------------------------------------------------------

  /** A number or identifier leaf pushes exactly one object carrying its contents. */
  lemma LeafPushesOne(node: MLNode, s: ParserState)
    requires node.ntype == NUMBER || node.ntype == IDENTIFIER
    ensures NodeTrace(node).Some?
    ensures Run(s, NodeTrace(node).value)
         == s.(stack := s.stack + [StackObject(node.contents, if node.ntype == NUMBER then NUMBER_OBJ else IDENTIFIER_OBJ)])
  {
    var evs := NodeTrace(node).value;
    assert evs[1..] == [];
  }

  /** A number followed by the identifier `i` is one imaginary NUMBER, and both children are consumed. */
  lemma ImaginaryNumber(node: MLNode, i: nat)
    requires i + 1 < |node.children|
    requires node.children[i].ntype == NUMBER
    requires node.children[i + 1].ntype == IDENTIFIER && node.children[i + 1].contents == Some("i")
    ensures StepTrace(node, i)
         == Turn(Some([Push(StackObject(Some(Show(node.children[i].contents) + "i"), NUMBER_OBJ))]), i + 2)
  {
  }

  /** `prev op next` between two expressions: prev's tokens, next's tokens, then the operator. */
  lemma BinaryBetweenExpressions(node: MLNode, i: nat)
    requires 0 < i && i + 1 < |node.children|
    requires node.children[i].ntype == BINARY && Truthy(node.children[i].contents)
    requires IsExpression(node.children[i - 1]) && IsExpression(node.children[i + 1])
    ensures StepTrace(node, i)
         == Turn(Cat(Cat(NodeTrace(node.children[i - 1]), NodeTrace(node.children[i + 1])),
                     Some([Push(Op(node.children[i].contents.value))])), i + 2)
  {
  }

  /** A leading minus sign: the operand's tokens, NUMBER "-1", then `\cdot`. */
  lemma LeadingMinus(node: MLNode)
    requires 2 <= |node.children|
    requires node.children[0].ntype == BINARY && node.children[0].contents == Some(MINUS_SIGN)
    requires IsExpression(node.children[1])
    ensures StepTrace(node, 0)
         == Turn(Cat(NodeTrace(node.children[1]), Some([Push(StackObject(Some("-1"), NUMBER_OBJ)), Push(Op("\\cdot"))])), 2)
  {
  }

  /** An operator with nothing after it records the error and empties the stack. */
  lemma TrailingOperator(node: MLNode, s: ParserState)
    requires 2 <= |node.children|
    requires node.children[|node.children| - 1].ntype == BINARY && Truthy(node.children[|node.children| - 1].contents)
    requires node.children[|node.children| - 1].children == []
    ensures var turn := StepTrace(node, |node.children| - 1);
      turn.events.Some? && Run(s, turn.events.value) == ParserState([], Some("incomplete binary expression"))
  {
    var n := node.children[|node.children| - 1];
    assert ChildrenTrace(n) == Some([]);
    assert [Raise("incomplete binary expression")][1..] == [];
  }

  /** `name`, U+2061, `arg`: the argument's tokens and then the name as an operator; three children are consumed. */
  lemma FunctionApplication(node: MLNode, i: nat)
    requires AppliesFunction(node, i)
    ensures StepTrace(node, i)
         == Turn(Cat(NodeTrace(node.children[i + 2]), Some([Push(Op(node.children[i].contents.value))])), i + 3)
  {
  }

  function Leaf(t: MLNodeType, text: string): MLNode { MLNode("", t, Some(text), []) }

  /** A mathematical italic x or y is two UTF-16 code units long, so it is no expression: the row `x y` of them pushes nothing. */
  lemma AstralIdentifiersVanish()
    ensures var row := MLNode("mrow", PAREN, None, [Leaf(IDENTIFIER, "\U{1D465}"), Leaf(IDENTIFIER, "\U{1D466}")]);
      !IsExpression(row.children[0]) && NodeTrace(row) == Some([])
  {
    var row := MLNode("mrow", PAREN, None, [Leaf(IDENTIFIER, "\U{1D465}"), Leaf(IDENTIFIER, "\U{1D466}")]);
    assert Utf16Length(row.children[0].contents.value) == 2;
    assert Utf16Length(row.children[1].contents.value) == 2;
    assert StepTrace(row, 0) == Turn(Some([]), 1);
    assert StepTrace(row, 1) == Turn(Some([]), 2);
    assert LoopTrace(row, 2) == Some([]);
    assert LoopTrace(row, 1) == Some([]);
    assert LoopTrace(row, 0) == Some([]);
  }

  /** The row `a + b` leaves the stack `a b +`. */
  lemma SumRow()
    ensures var row := MLNode("mrow", PAREN, None, [Leaf(IDENTIFIER, "a"), Leaf(BINARY, "+"), Leaf(IDENTIFIER, "b")]);
      NodeTrace(row).Some?
      && Run(ParserState([], None), NodeTrace(row).value).stack
         == [StackObject(Some("a"), IDENTIFIER_OBJ), StackObject(Some("b"), IDENTIFIER_OBJ), Op("+")]
  {
    var row := MLNode("mrow", PAREN, None, [Leaf(IDENTIFIER, "a"), Leaf(BINARY, "+"), Leaf(IDENTIFIER, "b")]);
    var a, b := StackObject(Some("a"), IDENTIFIER_OBJ), StackObject(Some("b"), IDENTIFIER_OBJ);
    var evs := [Push(a), Push(b), Push(Op("+"))];
    assert IsExpression(row.children[0]) && row.children[1].ntype == BINARY;
    assert StepTrace(row, 0) == Turn(Some([]), 1);
    BinaryBetweenExpressions(row, 1);
    assert NodeTrace(row.children[0]) == Some([Push(a)]);
    assert NodeTrace(row.children[2]) == Some([Push(b)]);
    assert [Push(a)] + [Push(b)] + [Push(Op("+"))] == evs;
    assert StepTrace(row, 1) == Turn(Some(evs), 3);
    assert LoopTrace(row, 3) == Some([]);
    assert evs + [] == evs && [] + evs == evs;
    assert LoopTrace(row, 1) == Some(evs);
    assert LoopTrace(row, 0) == Some(evs);
    assert NodeTrace(row) == Some(evs);
    assert evs[1..] == [Push(b), Push(Op("+"))];
    assert evs[1..][1..] == [Push(Op("+"))];
    assert evs[1..][1..][1..] == [];
    var s0 := ParserState([], None);
    assert [] + [a] == [a] && [a] + [b] == [a, b] && [a, b] + [Op("+")] == [a, b, Op("+")];
    assert Step(s0, evs[0]) == ParserState([a], None);
    assert Step(ParserState([a], None), evs[1..][0]) == ParserState([a, b], None);
    assert Run(s0, evs) == Run(ParserState([a], None), evs[1..]);
    assert Run(ParserState([a], None), evs[1..]) == Run(ParserState([a, b], None), evs[1..][1..]);
    assert Run(ParserState([a, b], None), evs[1..][1..]) == ParserState([a, b, Op("+")], None);
  }

  // ---------------------------------------------------------------------
  // MathMLParser
  // ---------------------------------------------------------------------

  class MathMLParser {
    var stack: seq<StackObject>
    var parseError: Option<string>

    ghost function State(): ParserState
      reads this
    {
      ParserState(stack, parseError)
    }

    constructor()
      ensures State() == ParserState([], None)
    {
      stack := [];
      parseError := None;
    }

    /** Records the message and empties the stack. */
    method Error(msg: string)
      modifies this
      ensures State() == Step(old(State()), Raise(msg))
      ensures parseError == Some(msg) && stack == []
    {
      parseError := Some(msg);
      stack := [];
    }

    method PushObject(obj: StackObject)
      modifies this
      ensures State() == Step(old(State()), Push(obj))
      ensures stack == old(stack) + [obj] && parseError == old(parseError)
    {
      stack := stack + [obj];
    }

    method VisitNode(node: MLNode)
      requires NodeTrace(node).Some?
      modifies this
      decreases node, 2, 0, 0
      ensures State() == Run(old(State()), NodeTrace(node).value)
    {
      match node.ntype
      case NUMBER =>
        PushObject(StackObject(node.contents, NUMBER_OBJ));
        assert [Push(StackObject(node.contents, NUMBER_OBJ))][1..] == [];
      case IDENTIFIER =>
        PushObject(StackObject(node.contents, IDENTIFIER_OBJ));
        assert [Push(StackObject(node.contents, IDENTIFIER_OBJ))][1..] == [];
      case _ =>
        VisitChildren(node);
    }

    method VisitChildren(node: MLNode)
      requires ChildrenTrace(node).Some?
      modifies this
      decreases node, 1, 0, 0
      ensures State() == Run(old(State()), ChildrenTrace(node).value)
    {
      if |node.children| == 0 {
        return;
      }
      if |node.children| == 1 {
        VisitNode(node.children[0]);
        return;
      }
      ghost var s0 := State();
      ghost var done: seq<Event> := [];
      var i := 0;
      while i < |node.children|
        invariant LoopTrace(node, i).Some?
        invariant done + LoopTrace(node, i).value == LoopTrace(node, 0).value
        invariant State() == Run(s0, done)
        decreases |node.children| - i
      {
        ghost var turn := StepTrace(node, i);
        i := VisitAt(node, i);
        RunAppend(s0, done, turn.events.value);
        done := done + turn.events.value;
      }
      assert LoopTrace(node, i) == Some([]);
      assert done == LoopTrace(node, 0).value;
    }

    /** One turn of the visitChildren loop; returns the index at which the loop goes on. */
    method VisitAt(node: MLNode, i: nat) returns (next: nat)
      requires i < |node.children| && StepTrace(node, i).events.Some?
      modifies this
      decreases node, 0, |node.children| - i, 1
      ensures next == StepTrace(node, i).next
      ensures State() == Run(old(State()), StepTrace(node, i).events.value)
    {
      var n := node.children[i];
      if AppliesFunction(node, i) {
        ghost var s0 := State();
        VisitNode(node.children[i + 2]);
        PushObject(Op(n.contents.value));
        RunAppend(s0, NodeTrace(node.children[i + 2]).value, [Push(Op(n.contents.value))]);
        assert [Push(Op(n.contents.value))][1..] == [];
        next := i + 3;
      } else if IsExpression(n) {
        next := VisitExpressionAt(node, i);
      } else if n.ntype == BINARY && Truthy(n.contents) {
        next := VisitBinaryAt(node, i);
      } else {
        VisitChildren(n);
        next := i + 1;
      }
    }

    method VisitExpressionAt(node: MLNode, i: nat) returns (next: nat)
      requires i < |node.children| && IsExpression(node.children[i])
      requires ExpressionTurn(node, i).events.Some?
      modifies this
      decreases node, 0, |node.children| - i, 0
      ensures next == ExpressionTurn(node, i).next
      ensures State() == Run(old(State()), ExpressionTurn(node, i).events.value)
    {
      var n := node.children[i];
      assert i + 1 < |node.children|;
      var after := node.children[i + 1];
      if after.ntype == BINARY {
        next := i + 1;
      } else if n.ntype == NUMBER && after.ntype == IDENTIFIER && after.contents == Some("i") {
        PushObject(StackObject(Some(Show(n.contents) + "i"), NUMBER_OBJ));
        assert [Push(StackObject(Some(Show(n.contents) + "i"), NUMBER_OBJ))][1..] == [];
        next := i + 2;
      } else if IsExpression(after) {
        ghost var s0 := State();
        VisitNode(n);
        var j := VisitProduct(node, i + 1);
        RunAppend(s0, NodeTrace(n).value, ProductTrace(node, i + 1).value);
        next := j + 1;
      } else {
        VisitChildren(n);
        next := i + 1;
      }
    }

    method VisitBinaryAt(node: MLNode, i: nat) returns (next: nat)
      requires i < |node.children| && Truthy(node.children[i].contents)
      requires BinaryTurn(node, i).events.Some?
      modifies this
      decreases node, 0, |node.children| - i, 0
      ensures next == BinaryTurn(node, i).next
      ensures State() == Run(old(State()), BinaryTurn(node, i).events.value)
    {
      ghost var s0 := State();
      var n := node.children[i];
      var op := n.contents.value;
      if i + 1 >= |node.children| {
        Error("incomplete binary expression");
        assert [Raise("incomplete binary expression")][1..] == [];
        VisitChildren(n);
        RunAppend(s0, [Raise("incomplete binary expression")], ChildrenTrace(n).value);
        next := i + 1;
      } else if IsExpression(node.children[i + 1]) && i == 0 && op == MINUS_SIGN {
        ghost var tail := [Push(StackObject(Some("-1"), NUMBER_OBJ)), Push(Op("\\cdot"))];
        VisitNode(node.children[i + 1]);
        ghost var s1 := State();
        PushObject(StackObject(Some("-1"), NUMBER_OBJ));
        PushObject(Op("\\cdot"));
        assert tail[1..][1..] == [];
        assert State() == Run(s1, tail);
        RunAppend(s0, NodeTrace(node.children[i + 1]).value, tail);
        next := i + 2;
      } else if IsExpression(node.children[i + 1]) && i > 0 && IsExpression(node.children[i - 1]) {
        VisitNode(node.children[i - 1]);
        VisitNode(node.children[i + 1]);
        PushObject(Op(op));
        RunAppend(s0, NodeTrace(node.children[i - 1]).value, NodeTrace(node.children[i + 1]).value);
        RunAppend(s0, NodeTrace(node.children[i - 1]).value + NodeTrace(node.children[i + 1]).value, [Push(Op(op))]);
        assert [Push(Op(op))][1..] == [];
        next := i + 2;
      } else {
        VisitChildren(n);
        next := i + 1;
      }
    }

    /** The inner loop of an implied product, from index `j0`; returns the index after the run. */
    /** One factor of the implied product: the expression at `j`, then `\\cdot`. */
    method VisitFactor(node: MLNode, j: nat)
      requires j < |node.children| && NodeTrace(node.children[j]).Some?
      modifies this
      decreases node, 0, |node.children| - j, 0
      ensures State() == Run(old(State()), NodeTrace(node.children[j]).value + [Push(Op("\\cdot"))])
    {
      ghost var s0 := State();
      ghost var t := NodeTrace(node.children[j]).value;
      VisitNode(node.children[j]);
      PushObject(Op("\\cdot"));
      ProductDone(s0, [], t);
      assert [] + t == t;
    }

    method VisitProduct(node: MLNode, j0: nat) returns (j: nat)
      requires ProductTrace(node, j0).Some?
      modifies this
      decreases node, 0, |node.children| - j0, 1
      ensures j == ProductEnd(node, j0)
      ensures State() == Run(old(State()), ProductTrace(node, j0).value)
    {
      ghost var s0 := State();
      ghost var done: seq<Event> := [];
      j := j0;
      while j < |node.children| && IsExpression(node.children[j])
        invariant j >= j0
        invariant ProductTrace(node, j).Some? && ProductEnd(node, j) == ProductEnd(node, j0)
        invariant done + ProductTrace(node, j).value == ProductTrace(node, j0).value
        invariant State() == Run(s0, done)
        decreases |node.children| - j
      {
        ProductUnfold(node, j);
        ghost var t := NodeTrace(node.children[j]).value + [Push(Op("\\cdot"))];
        VisitFactor(node, j);
        RunAppend(s0, done, t);
        assert done + t + ProductTrace(node, j + 1).value == done + ProductTrace(node, j).value;
        done := done + t;
        j := j + 1;
      }
      assert ProductTrace(node, j) == Some([]);
      assert done == ProductTrace(node, j0).value;
    }
  }
}
