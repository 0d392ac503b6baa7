/**
 * The MathQuill input path of the user interface: SemanticParser in
 * ui/src/components/MathQuillField.tsx.
 *
 * The text MathQuill exports is split by a regular expression into tokens;
 * the recursive visitToken walks them, keeping a pending multi-letter
 * symbol, a jump target after a closing bracket, the token stack and the
 * last parse error. The regular expressions and `Module.Globals.isGlobal`
 * are parameters: a token is the five capture groups of one match.
 *
 * The class keeps the source's fields; VisitToken and MaybeVisitMultisymbol
 * are proved against the functions TokenStep and MultisymbolStep on a
 * snapshot of those fields, and the lemmas below are about those functions.
 */
module SemanticParsing {
  import opened Wrappers
  import opened JsText

  datatype ObjType = NUMBER | IDENTIFIER | OPERATOR | FXNCALL

  datatype StackObject = StackObject(value: string, otype: ObjType)

  /**
   * One match of the tokenizer: a decimal number, a multi-character
   * identifier, a single-character identifier, a binary operator or a
   * bracket; a group that did not take part is None.
   */
  datatype Token = Token(
    number: Option<string>, multi: Option<string>, single: Option<string>,
    binop: Option<string>, paren: Option<string>)

  /** The unary operators, in the order the search tries them. */
  const UNARY_OPS: seq<string> :=
    ["sinh", "cosh", "tanh", "sech", "csch", "coth", "sin", "cos", "tan", "sec", "csc", "cot", "arg"]

  /** `ops.find(op => symbol.startsWith(op))` */
  function FindPrefix(ops: seq<string>, symbol: string): (r: Option<string>)
    ensures r.None? <==> forall k :: 0 <= k < |ops| ==> !StartsWith(symbol, ops[k])
    ensures r.Some? ==> exists k :: 0 <= k < |ops| && ops[k] == r.value && StartsWith(symbol, ops[k])
                         && forall j :: 0 <= j < k ==> !StartsWith(symbol, ops[j])
  {
    if ops == [] then None
    else if StartsWith(symbol, ops[0]) then Some(ops[0])
    else
      var r := FindPrefix(ops[1..], symbol);
      assert r.Some? ==> exists k :: 0 <= k < |ops[1..]| && ops[1..][k] == r.value && StartsWith(symbol, ops[1..][k])
                          && forall j :: 0 <= j < k ==> !StartsWith(symbol, ops[1..][j]);
      if r.Some? then
        var k :| 0 <= k < |ops[1..]| && ops[1..][k] == r.value && StartsWith(symbol, ops[1..][k])
                 && forall j :: 0 <= j < k ==> !StartsWith(symbol, ops[1..][j]);
        assert ops[k + 1] == r.value && forall j :: 0 <= j < k + 1 ==> !StartsWith(symbol, ops[j]) by {
          forall j | 0 <= j < k + 1 ensures !StartsWith(symbol, ops[j]) {
            if j > 0 { assert ops[j] == ops[1..][j - 1]; }
          }
        }
        r
      else
        assert forall k :: 0 <= k < |ops| ==> !StartsWith(symbol, ops[k]) by {
          forall k | 0 <= k < |ops| ensures !StartsWith(symbol, ops[k]) {
            if k > 0 { assert ops[k] == ops[1..][k - 1]; }
          }
        }
        r
  }

  lemma NotPrefixAt(s: string, p: string, j: nat)
    requires j < |s| && j < |p| && s[j] != p[j]
    ensures !StartsWith(s, p)
  {
  }

  /** `sinh` is tried first and wins over `sin` for a symbol beginning `sinh`. */
  lemma SinhBeforeSin()
    ensures StartsWith("sinhz", "sin")
    ensures FindPrefix(UNARY_OPS, "sinhz") == Some("sinh")
  {
    assert "sinhz"[..3] == "sin";
    assert "sinhz"[..4] == "sinh";
  }

  /** The search returns exactly the first operator that begins the symbol. */
  lemma FirstPrefixWins(ops: seq<string>, symbol: string, k: nat)
    requires k < |ops| && StartsWith(symbol, ops[k])
    requires forall j :: 0 <= j < k ==> !StartsWith(symbol, ops[j])
    ensures FindPrefix(ops, symbol) == Some(ops[k])
  {
    var r := FindPrefix(ops, symbol);
    var k' :| 0 <= k' < |ops| && ops[k'] == r.value && StartsWith(symbol, ops[k'])
              && forall j :: 0 <= j < k' ==> !StartsWith(symbol, ops[j]);
    assert k' == k;
  }

  /** A symbol beginning `sin` but not `sinh` falls through the hyperbolic names to `sin`. */
  lemma SinAfterHyperbolic()
    ensures FindPrefix(UNARY_OPS, "sinz") == Some("sin")
  {
    var ops := UNARY_OPS;
    NotPrefixAt("sinz", ops[0], 3);
    NotPrefixAt("sinz", ops[1], 0);
    NotPrefixAt("sinz", ops[2], 0);
    NotPrefixAt("sinz", ops[3], 1);
    NotPrefixAt("sinz", ops[4], 0);
    NotPrefixAt("sinz", ops[5], 0);
    assert "sinz"[..3] == ops[6];
    FirstPrefixWins(ops, "sinz", 6);
  }

  /** The parser fields visitToken reads and writes. */
  datatype SemState = SemState(symbol: string, skipTo: int, stack: seq<StackObject>, parseErr: Option<string>)

  /** What visitToken only reads: the tokens, the parameter name and the globals test. */
  datatype Ctx = Ctx(tokens: seq<Token>, fxnParam: Option<string>, isGlobal: string -> bool)

  /** `tokens[i]`, which is undefined outside the array. */
  function TokenAt(tokens: seq<Token>, i: int): Option<Token> {
    if 0 <= i < |tokens| then Some(tokens[i]) else None
  }

  function Push(st: SemState, obj: StackObject): SemState {
    st.(stack := st.stack + [obj])
  }

  function Op(s: string): StackObject { StackObject(s, OPERATOR) }

  /** visitIdentifier: only the parameter or a global is pushed; anything else is an error. */
  function IdentifierStep(c: Ctx, st: SemState, id: string): (r: SemState)
    ensures r.symbol == st.symbol && r.skipTo == st.skipTo
    ensures c.fxnParam == Some(id) || c.isGlobal(id) ==> r == st.(stack := st.stack + [StackObject(id, IDENTIFIER)])
    ensures !(c.fxnParam == Some(id) || c.isGlobal(id)) ==> r.stack == st.stack && r.parseErr == Some("unrecognized symbol")
  {
    if c.fxnParam == Some(id) || c.isGlobal(id) then Push(st, StackObject(id, IDENTIFIER))
    else st.(parseErr := Some("unrecognized symbol"))
  }

  /** The negative-number test of visitToken for a `-` token. */
  predicate UnaryMinus(prev: Option<Token>, next: Option<Token>) {
    next.Some? && (Truthy(next.value.single) || Truthy(next.value.paren) || Truthy(next.value.number))
    && (prev.None? || !Truthy(prev.value.single) || !Truthy(prev.value.number) || prev.value.paren == Some("("))
  }

  /** The complex-literal test of visitToken: number, `+` or `-`, number ending in `i`. */
  predicate ComplexLiteral(next: Option<Token>, overnext: Option<Token>) {
    next.Some? && Truthy(next.value.binop) && (next.value.binop.value == "+" || next.value.binop.value == "-")
    && overnext.Some? && Truthy(overnext.value.number) && EndsWith(overnext.value.number.value, "i")
  }

  /**
   * visitToken(i) on the fields `st`. Every token lies at an index above
   * `i` when the walk jumps after a closing bracket, so `skipTo` is -1 or
   * beyond `i` on return; the stack is only ever appended to.
   */
  function TokenStep(c: Ctx, st: SemState, i: nat): (r: SemState)
    requires st.skipTo == -1
    ensures r.skipTo == -1 || r.skipTo > i
    ensures st.stack <= r.stack
    decreases |c.tokens| - i, 1
  {
    if i >= |c.tokens| then st
    else
      var token := c.tokens[i];
      var prev := TokenAt(c.tokens, i - 1);
      var next := TokenAt(c.tokens, i + 1);
      if Truthy(token.paren) then
        if token.paren.value == ")" then st.(skipTo := i + 1)
        else if token.paren.value == "(" then AfterToken(c, TokenStep(c, st, i + 1), i)
        else st.(parseErr := Some("malformed bracket expression"))
      else if Truthy(token.number) then
        var overnext := TokenAt(c.tokens, i + 2);
        if ComplexLiteral(next, overnext) then
          TokenStep(c, Push(st, StackObject(token.number.value + next.value.binop.value + overnext.value.number.value, NUMBER)), i + 2)
        else
          TokenStep(c, Push(st, StackObject(token.number.value, NUMBER)), i + 1)
      else if Truthy(token.multi) then
        AfterToken(c, st, i)
      else if Truthy(token.single) then
        if next.Some? && Truthy(next.value.single) then
          AfterToken(c, st.(symbol := st.symbol + token.single.value), i)
        else
          var m := MultisymbolStep(c, st, i);
          AfterToken(c, if m.1 then m.0 else IdentifierStep(c, m.0, token.single.value), i)
      else if Truthy(token.binop) then
        if token.binop.value == "-" && UnaryMinus(prev, next) then
          Push(TokenStep(c, Push(st, StackObject("-1", NUMBER)), i + 1), Op("*"))
        else if prev.None? || next.None? then
          st.(parseErr := Some("incomplete binary operation"))
        else
          Push(TokenStep(c, st, i + 1), Op(token.binop.value))
      else
        AfterToken(c, st, i)
  }

  /** The tail of visitToken: jump to `skipTo` when one is pending, otherwise go on with the next token. */
  function AfterToken(c: Ctx, st: SemState, i: nat): (r: SemState)
    requires i < |c.tokens| && (st.skipTo == -1 || st.skipTo > i)
    ensures r.skipTo == -1 || r.skipTo > i
    ensures st.stack <= r.stack
    decreases |c.tokens| - i, 0
  {
    if st.skipTo > 0 then
      if st.skipTo < |c.tokens| then TokenStep(c, st.(skipTo := -1), st.skipTo) else st
    else
      TokenStep(c, st, i + 1)
  }

  /**
   * maybeVisitMultisymbol(i): the pending symbol and the letter at `i` are
   * split into the first unary operator that begins them and a remainder.
   */
  function MultisymbolStep(c: Ctx, st: SemState, i: nat): (r: (SemState, bool))
    requires st.skipTo == -1 && i < |c.tokens|
    ensures r.0.skipTo == -1 || r.0.skipTo > i
    ensures st.stack <= r.0.stack
    decreases |c.tokens| - i, 0
  {
    if st.symbol == "" then (st, false)
    else
      var token := c.tokens[i];
      var sym := if Truthy(token.single) then st.symbol + token.single.value else st.symbol;
      match FindPrefix(UNARY_OPS, sym)
      case None => (st.(symbol := sym, parseErr := Some("illegal unary operator")), false)
      case Some(op) =>
        var rem := sym[|op|..];
        var st1 := st.(symbol := "");
        var st2 := if |rem| > 0 then IdentifierStep(c, st1, rem) else TokenStep(c, st1, i + 1);
        (Push(st2, Op(op)), true)
  }

  // ---------------------------------------------------------------------
  // Properties
  // ---------------------------------------------------------------------

  /** The symbol visitToken hands to the operator search at `i`. */
  function PendingSymbol(c: Ctx, st: SemState, i: nat): string
    requires i < |c.tokens|
  {
    if Truthy(c.tokens[i].single) then st.symbol + c.tokens[i].single.value else st.symbol
  }

  /**
   * With no matching operator the symbol is an error and nothing is pushed;
   * with one and a remainder, the remainder (when it is known) and then the
   * operator are pushed and the symbol is cleared; with one and no
   * remainder, the following tokens come first and the operator last.
   */
  lemma MultisymbolCases(c: Ctx, st: SemState, i: nat)
    requires st.skipTo == -1 && i < |c.tokens| && st.symbol != ""
    ensures var r := MultisymbolStep(c, st, i); var sym := PendingSymbol(c, st, i);
      && (FindPrefix(UNARY_OPS, sym).None? ==>
            !r.1 && r.0.stack == st.stack && r.0.parseErr == Some("illegal unary operator"))
      && (FindPrefix(UNARY_OPS, sym).Some? ==> r.1 && Last(r.0.stack) == Op(FindPrefix(UNARY_OPS, sym).value))
      && (FindPrefix(UNARY_OPS, sym).Some? && |FindPrefix(UNARY_OPS, sym).value| < |sym| ==>
            var rem := sym[|FindPrefix(UNARY_OPS, sym).value|..];
            r.0.symbol == ""
            && r.0.stack == st.stack + (if c.fxnParam == Some(rem) || c.isGlobal(rem) then [StackObject(rem, IDENTIFIER)] else [])
                            + [Op(FindPrefix(UNARY_OPS, sym).value)])
      && (FindPrefix(UNARY_OPS, sym).Some? && |FindPrefix(UNARY_OPS, sym).value| == |sym| ==>
            r.0.stack == TokenStep(c, st.(symbol := ""), i + 1).stack + [Op(FindPrefix(UNARY_OPS, sym).value)])
  {
    var sym := PendingSymbol(c, st, i);
    match FindPrefix(UNARY_OPS, sym)
    case None =>
    case Some(op) =>
      assert StartsWith(sym, op);
  }

  function Last(s: seq<StackObject>): StackObject
    requires s != []
  {
    s[|s| - 1]
  }

  /**
   * A binary operator between two tokens visits everything to its right and
   * then pushes itself; without a neighbour it is an error and the stack is
   * left alone.
   */
  lemma BinaryOperator(c: Ctx, st: SemState, i: nat)
    requires st.skipTo == -1 && i < |c.tokens|
    requires var t := c.tokens[i];
      !Truthy(t.paren) && !Truthy(t.number) && !Truthy(t.multi) && !Truthy(t.single) && Truthy(t.binop)
    requires !(c.tokens[i].binop.value == "-" && UnaryMinus(TokenAt(c.tokens, i - 1), TokenAt(c.tokens, i + 1)))
    ensures 0 < i < |c.tokens| - 1 ==>
      TokenStep(c, st, i) == Push(TokenStep(c, st, i + 1), Op(c.tokens[i].binop.value))
    ensures i == 0 || i == |c.tokens| - 1 ==>
      TokenStep(c, st, i) == st.(parseErr := Some("incomplete binary operation"))
  {
  }

  /**
   * A `-` in front of a letter, bracket or number is a negation: NUMBER
   * "-1", then the operand's tokens, then `*`.
   */
  lemma NegationOrder(c: Ctx, st: SemState, i: nat)
    requires st.skipTo == -1 && i < |c.tokens|
    requires var t := c.tokens[i];
      !Truthy(t.paren) && !Truthy(t.number) && !Truthy(t.multi) && !Truthy(t.single) && t.binop == Some("-")
    requires UnaryMinus(TokenAt(c.tokens, i - 1), TokenAt(c.tokens, i + 1))
    ensures var operand := TokenStep(c, Push(st, StackObject("-1", NUMBER)), i + 1).stack;
      |operand| > |st.stack| &&
      TokenStep(c, st, i).stack
        == st.stack + [StackObject("-1", NUMBER)] + operand[|st.stack| + 1..] + [Op("*")]
  {
    var st1 := Push(st, StackObject("-1", NUMBER));
    var operand := TokenStep(c, st1, i + 1).stack;
    assert st1.stack <= operand;
    assert operand == st.stack + [StackObject("-1", NUMBER)] + operand[|st.stack| + 1..];
  }

  /** A closing bracket only records where the walk resumes. */
  lemma ClosingBracket(c: Ctx, st: SemState, i: nat)
    requires st.skipTo == -1 && i < |c.tokens| && c.tokens[i].paren == Some(")")
    ensures TokenStep(c, st, i) == st.(skipTo := i + 1)
  {
  }

  /** The text a function definition hashes: name, parameter and every stack entry as `type:value`. */
  function RawName(fxnName: string, fxnParam: string, stack: seq<StackObject>): string {
    fxnName + "_" + fxnParam + JoinStack(stack)
  }

  function TypeCode(t: ObjType): string {
    match t
    case NUMBER => "0"
    case IDENTIFIER => "1"
    case OPERATOR => "2"
    case FXNCALL => "3"
  }

  /** `stack.map(obj => obj.type + ":" + obj.value).join("_")` */
  function JoinStack(stack: seq<StackObject>): string
    decreases |stack|
  {
    if stack == [] then ""
    else
      var entry := TypeCode(stack[0].otype) + ":" + stack[0].value;
      if |stack| == 1 then entry else entry + "_" + JoinStack(stack[1..])
  }

  /** generateFunctionName: `"__jit_"` and the first 16 hex digits of the digest of the raw name. */
  function GenerateFunctionName(sha1: string -> string, fxnName: string, fxnParam: string, stack: seq<StackObject>): (name: string)
    ensures 6 <= |name| <= 22 && name[..6] == "__jit_"
    ensures name[6..] == Take(sha1(RawName(fxnName, fxnParam, stack)), 16)
    ensures |sha1(RawName(fxnName, fxnParam, stack))| >= 16 ==> |name| == 22
  {
    "__jit_" + Take(sha1(RawName(fxnName, fxnParam, stack)), 16)
  }

  // ---------------------------------------------------------------------
  // The class
  // ---------------------------------------------------------------------

  class SemanticParser {
    var fxnName: Option<string>
    var fxnParam: Option<string>
    var symbol: string
    var skipTo: int
    var stack: seq<StackObject>
    var tokens: seq<Token>
    var parseErr: Option<string>
    /** `Module.Globals.isGlobal` */
    const isGlobal: string -> bool

    ghost function State(): SemState
      reads this`symbol, this`skipTo, this`stack, this`parseErr
    {
      SemState(symbol, skipTo, stack, parseErr)
    }

    ghost function Context(): Ctx
      reads this`tokens, this`fxnParam
    {
      Ctx(tokens, fxnParam, isGlobal)
    }

    constructor(isGlobal: string -> bool)
      ensures State() == SemState("", -1, [], None) && tokens == []
      ensures fxnName.None? && fxnParam.None? && this.isGlobal == isGlobal
    {
      fxnName := None;
      fxnParam := None;
      symbol := "";
      skipTo := -1;
      stack := [];
      tokens := [];
      parseErr := None;
      this.isGlobal := isGlobal;
    }

    /** Records the message; the stack is left as it is. */
    method ParseError(err: string)
      modifies this`parseErr
      ensures parseErr == Some(err)
    {
      parseErr := Some(err);
    }

    method VisitNumber(num: string)
      modifies this`stack
      ensures stack == old(stack) + [StackObject(num, NUMBER)]
    {
      stack := stack + [StackObject(num, NUMBER)];
    }

    method VisitIdentifier(id: string)
      modifies this`stack, this`parseErr
      ensures State() == IdentifierStep(Context(), old(State()), id)
    {
      if fxnParam == Some(id) || isGlobal(id) {
        stack := stack + [StackObject(id, IDENTIFIER)];
      } else {
        ParseError("unrecognized symbol");
      }
    }

    method VisitBinary(op: string)
      modifies this`stack
      ensures stack == old(stack) + [Op(op)]
    {
      stack := stack + [Op(op)];
    }

    method VisitUnary(op: string)
      modifies this`stack
      ensures stack == old(stack) + [Op(op)]
    {
      stack := stack + [Op(op)];
    }

    method MaybeVisitMultisymbol(i: nat) returns (visited: bool)
      requires skipTo == -1 && i < |tokens|
      modifies this`symbol, this`skipTo, this`stack, this`parseErr
      decreases |tokens| - i, 0
      ensures (State(), visited) == MultisymbolStep(Context(), old(State()), i)
    {
      if symbol != "" {
        var thisToken := tokens[i];
        if Truthy(thisToken.single) {
          symbol := symbol + thisToken.single.value;
        }
        var op := FindPrefix(UNARY_OPS, symbol);
        if op.None? {
          ParseError("illegal unary operator");
          return false;
        }
        var rem := symbol[|op.value|..];
        symbol := "";
        if |rem| > 0 {
          VisitIdentifier(rem);
        } else {
          VisitToken(i + 1);
        }
        VisitUnary(op.value);
        return true;
      }
      return false;
    }

    method VisitToken(i: nat)
      requires skipTo == -1
      modifies this`symbol, this`skipTo, this`stack, this`parseErr
      decreases |tokens| - i, 2
      ensures State() == TokenStep(Context(), old(State()), i)
    {
      if i >= |tokens| {
        return;
      }
      var token := tokens[i];
      if Truthy(token.paren) {
        if token.paren.value == ")" {
          skipTo := i + 1;
          return;
        } else if token.paren.value == "(" {
          VisitToken(i + 1);
        } else {
          ParseError("malformed bracket expression");
          return;
        }
      } else if Truthy(token.number) {
        VisitNumberToken(i);
        return;
      } else if Truthy(token.multi) {
        // a multi-letter identifier is not visited
      } else if Truthy(token.single) {
        var next := TokenAt(tokens, i + 1);
        if next.Some? && Truthy(next.value.single) {
          symbol := symbol + token.single.value;
        } else {
          var visited := MaybeVisitMultisymbol(i);
          if !visited {
            VisitIdentifier(token.single.value);
          }
        }
      } else if Truthy(token.binop) {
        VisitOperatorToken(i);
        return;
      }
      ContinueAfter(i);
    }

    /** The number branch of visitToken: a complex literal spans three tokens, a plain number one. */
    method VisitNumberToken(i: nat)
      requires skipTo == -1 && i < |tokens|
      requires !Truthy(tokens[i].paren) && Truthy(tokens[i].number)
      modifies this`symbol, this`skipTo, this`stack, this`parseErr
      decreases |tokens| - i, 1
      ensures State() == TokenStep(Context(), old(State()), i)
    {
      var token := tokens[i];
      var next := TokenAt(tokens, i + 1);
      var overnext := TokenAt(tokens, i + 2);
      if ComplexLiteral(next, overnext) {
        VisitNumber(token.number.value + next.value.binop.value + overnext.value.number.value);
        VisitToken(i + 2);
      } else {
        VisitNumber(token.number.value);
        VisitToken(i + 1);
      }
    }

    /** The operator branch of visitToken: a negation, an error at either end, or a binary operation. */
    method VisitOperatorToken(i: nat)
      requires skipTo == -1 && i < |tokens|
      requires !Truthy(tokens[i].paren) && !Truthy(tokens[i].number) && !Truthy(tokens[i].multi)
      requires !Truthy(tokens[i].single) && Truthy(tokens[i].binop)
      modifies this`symbol, this`skipTo, this`stack, this`parseErr
      decreases |tokens| - i, 1
      ensures State() == TokenStep(Context(), old(State()), i)
    {
      var token := tokens[i];
      var prev := TokenAt(tokens, i - 1);
      var next := TokenAt(tokens, i + 1);
      if token.binop.value == "-" && UnaryMinus(prev, next) {
        VisitNumber("-1");
        VisitToken(i + 1);
        VisitBinary("*");
        return;
      }
      if prev.None? || next.None? {
        ParseError("incomplete binary operation");
        return;
      }
      VisitToken(i + 1);
      VisitBinary(token.binop.value);
    }

    /** The tail of visitToken: jump to `skipTo` when one is pending, otherwise go on with the next token. */
    method ContinueAfter(i: nat)
      requires i < |tokens| && (skipTo == -1 || skipTo > i)
      modifies this`symbol, this`skipTo, this`stack, this`parseErr
      decreases |tokens| - i, 1
      ensures State() == AfterToken(Context(), old(State()), i)
    {
      if skipTo > 0 {
        if skipTo < |tokens| {
          var x := skipTo;
          skipTo := -1;
          VisitToken(x);
        }
      } else {
        VisitToken(i + 1);
      }
    }

    /** Tokenizes the text and walks the tokens from the first. */
    method VisitMath(text: string, tokenize: string -> seq<Token>)
      requires skipTo == -1
      modifies this`symbol, this`skipTo, this`stack, this`parseErr, this`tokens
      ensures tokens == tokenize(text)
      ensures State() == TokenStep(Context(), old(State()), 0)
    {
      tokens := tokenize(text);
      VisitToken(0);
    }

    /**
     * Matches `name(param) = definition`; the capture groups give the name,
     * the parameter and the text of the definition, which is then walked.
     * Text that does not match is an error and leaves name and parameter unset.
     */
    method VisitFunctionDefinition(text: string, functionPattern: string -> Option<seq<string>>, tokenize: string -> seq<Token>)
      requires skipTo == -1
      modifies this
      ensures functionPattern(text).None? || |functionPattern(text).value| != 4 ==>
        fxnName == old(fxnName) && fxnParam == old(fxnParam) && tokens == old(tokens)
        && State() == old(State()).(parseErr := Some("malformed function definition"))
      ensures functionPattern(text).Some? && |functionPattern(text).value| == 4 ==>
        var m := functionPattern(text).value;
        fxnName == Some(m[1]) && fxnParam == Some(m[2]) && tokens == tokenize(m[3])
        && State() == TokenStep(Ctx(tokenize(m[3]), Some(m[2]), isGlobal), old(State()), 0)
    {
      var m := functionPattern(text);
      if m.None? || |m.value| != 4 {
        ParseError("malformed function definition");
        return;
      }
      fxnName := Some(m.value[1]);
      fxnParam := Some(m.value[2]);
      VisitMath(m.value[3], tokenize);
    }
  }
}
