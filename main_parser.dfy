/** The parser of `src/main/parser.kt`: tokens to commands, and infix
    expressions to trees by a shunting yard (infix to postfix) followed by
    a reduction of the postfix list read from its end. */
module MainParser {
  import opened Common
  import opened MainOperators
  import opened MainTokenizer

  datatype Expression =
    | ExpInt(value: int)
    | ExpStr(text: string)
    | ExpIdentifier(name: string)
    | ExpUnr(uop: UnaryOp, expression: Expression)
    | ExpBin(left: Expression, op: BinaryOp, right: Expression)

  /** `Assignment.identifier` is an `ExpIdentifier` in the source; only its
      name is kept.  `If.then` is named `consequent` (`then` is reserved). */
  datatype Command =
    | Print(expression: Expression)
    | Assignment(identifier: string, expression: Expression)
    | StoreCommand(line: int, command: Command)
    | Run(line: int)
    | GoTo(line: int)
    | GoSub(line: int)
    | If(eval: Expression, consequent: CommandResult)
    | OnErr(command: Command)
    | Multiple(commands: seq<CommandResult>)
    | Return
    | Pop
    | ExpREM
    | ListCommand

  datatype CommandResult = CommandResult(original: string, command: Result<Command>)

  // ---------------------------------------------------------------------
  // The `push` / `peek` / `pop` helpers on a Kotlin MutableList
  // ---------------------------------------------------------------------

  /** A Kotlin `MutableList` used as a stack, the last element on top. */
  class ListStack<T> {
    var items: seq<T>

    constructor ()
      ensures items == []
    {
      items := [];
    }

    method Push(item: T)
      modifies this
      ensures items == old(items) + [item]
    {
      items := items + [item];
    }

    /** `lastOrNull()`. */
    function Peek(): (r: Option<T>)
      reads this
      ensures r.Some? <==> items != []
      ensures r.Some? ==> r.value == items[|items| - 1]
    {
      if items == [] then None else Some(items[|items| - 1])
    }

    /** Removes and returns the top; on an empty list returns null and
        leaves the list as it is. */
    method Pop() returns (r: Option<T>)
      modifies this
      ensures old(items) == [] ==> r == None && items == []
      ensures old(items) != [] ==> r == Some(old(items)[|old(items)| - 1])
      ensures old(items) != [] ==> items == old(items)[..|old(items)| - 1]
    {
      if items == [] {
        r := None;
      } else {
        r := Some(items[|items| - 1]);
        items := items[..|items| - 1];
      }
    }
  }

  // ---------------------------------------------------------------------
  // Token classes used by the expression parser
  // ---------------------------------------------------------------------

  predicate IsOperand(t: Token) { t.Identifier? || t.StringLiteral? || t.NumberLiteral? }

  /** The operator stacks of both algorithms hold `Operator` tokens only. */
  predicate AllOperators(ops: seq<Token>) { forall k :: 0 <= k < |ops| ==> ops[k].Operator? }

  predicate IsOperatorValue(t: Token, v: string) { t.Operator? && t.value == v }

  function Leaf(t: Token): (e: Expression)
    requires IsOperand(t)
  {
    match t
    case NumberLiteral(n) => ExpInt(n)
    case StringLiteral(s) => ExpStr(s)
    case Identifier(x) => ExpIdentifier(x)
  }

  /** The operands of a token list, in order, as the leaves they become. */
  function Operands(ts: seq<Token>): (leaves: seq<Expression>)
    ensures |leaves| <= |ts|
  {
    if ts == [] then []
    else (if IsOperand(ts[0]) then [Leaf(ts[0])] else []) + Operands(ts[1..])
  }

  /** The leaves of an expression tree from left to right. */
  function Leaves(e: Expression): (leaves: seq<Expression>)
    ensures |leaves| > 0
  {
    match e
    case ExpUnr(_, x) => Leaves(x)
    case ExpBin(l, _, r) => Leaves(l) + Leaves(r)
    case _ => [e]
  }

  // ---------------------------------------------------------------------
  // Shunting yard, as functions
  // ---------------------------------------------------------------------

  /** The output list and the operator stack of `parseShuntingYard`. */
  datatype Yard = Yard(output: seq<Token>, operators: seq<Token>)

  /** An operator is read as unary at the start of the list and right after
      any operator other than `)`. */
  predicate IsUnaryPosition(tokens: seq<Token>, index: nat)
    requires index < |tokens|
  {
    index == 0 || (tokens[index - 1].Operator? && tokens[index - 1].value != ")")
  }

  /** On `)`: move operators to the output until a `(` is on top, then drop
      the `(`; running out of operators first is an error. */
  function PopToParen(y: Yard): (r: Result<Yard>)
    requires AllOperators(y.operators)
    ensures r.Ok? ==> AllOperators(r.value.operators)
    decreases |y.operators|
  {
    if y.operators == [] then Err("*** No matching '(' ***")
    else
      var top := y.operators[|y.operators| - 1];
      if top.value == "(" then Ok(Yard(y.output, y.operators[..|y.operators| - 1]))
      else PopToParen(Yard(y.output + [top], y.operators[..|y.operators| - 1]))
  }

  /** Before a binary operator of priority `priority` is pushed: move to the
      output every stacked operator, up to a parenthesis, whose binary
      priority is at least `priority`. */
  function PopHigher(y: Yard, priority: int): (r: Result<Yard>)
    requires AllOperators(y.operators)
    ensures r.Ok? ==> AllOperators(r.value.operators)
    decreases |y.operators|
  {
    if y.operators == [] then Ok(y)
    else
      var top := y.operators[|y.operators| - 1];
      if top.value == "(" || top.value == ")" then Ok(y)
      else match GetBinop(top.value)
        case Err(e) => Err("*** Something went wrong 2:\n\t" + e)
        case Ok(op) =>
          if priority <= PriorityBinop(op)
          then PopHigher(Yard(y.output + [top], y.operators[..|y.operators| - 1]), priority)
          else Ok(y)
  }

  /** The body of the yard's loop for the token at `index`. */
  function YardStep(tokens: seq<Token>, index: nat, y: Yard): (r: Result<Yard>)
    requires index < |tokens| && AllOperators(y.operators)
    ensures r.Ok? ==> AllOperators(r.value.operators)
  {
    var token := tokens[index];
    match token
    case Identifier(_) => Ok(Yard(y.output + [token], y.operators))
    case StringLiteral(_) => Ok(Yard(y.output + [token], y.operators))
    case NumberLiteral(_) => Ok(Yard(y.output + [token], y.operators))
    case Operator(v, _) =>
      if v == "(" then Ok(Yard(y.output, y.operators + [token]))
      else if v == ")" then PopToParen(y)
      else if IsUnaryPosition(tokens, index) then
        (match GetUnop(v)
         case Err(e) => Err("*** Error in expression parsing ***\n\t" + e)
         case Ok(_) => Ok(Yard(y.output, y.operators + [Operator(v, true)])))
      else
        (match GetBinop(v)
         case Err(e) => Err("*** Error in expression parsing ***\n\t" + e)
         case Ok(op) =>
           (match PopHigher(y, PriorityBinop(op))
            case Err(e) => Err(e)
            case Ok(y2) => Ok(Yard(y2.output, y2.operators + [token]))))
    case EndOfLine => Ok(y)
    case _ => Err("*** Shunting yard can not handle: " + TokenText(token))
  }

  /** The yard run from `index` to the end, then the remaining operators
      moved to the output top first. */
  function YardFrom(tokens: seq<Token>, index: nat, y: Yard): (r: Result<seq<Token>>)
    requires index <= |tokens| && AllOperators(y.operators)
    decreases |tokens| - index
  {
    if index == |tokens| then Ok(y.output + Reversed(y.operators))
    else match YardStep(tokens, index, y)
      case Err(e) => Err(e)
      case Ok(y2) => YardFrom(tokens, index + 1, y2)
  }

  /** The postfix list `parseShuntingYard` hands to the reduction. */
  function Postfix(tokens: seq<Token>): Result<seq<Token>>
  {
    YardFrom(tokens, 0, Yard([], []))
  }

  // ---------------------------------------------------------------------
  // Reduction of the postfix list, as functions
  // ---------------------------------------------------------------------

  /** The expression stack, the operator stack and `pendingOperand`. */
  datatype Reduction = Reduction(exprs: seq<Expression>, ops: seq<Token>, pending: bool)

  /** A stacked operator with its parsed form and the stack below it. */
  datatype Applied = Applied(ops: seq<Token>, expression: Expression)

  /** Wrap `e` in every unary operator on top of the stack, topmost first. */
  function Unaries(ops: seq<Token>, e: Expression): (r: Result<Applied>)
    requires AllOperators(ops)
    ensures r.Ok? ==> AllOperators(r.value.ops) && Leaves(r.value.expression) == Leaves(e)
    decreases |ops|
  {
    if ops != [] && ops[|ops| - 1].unary then
      match GetUnop(ops[|ops| - 1].value)
      case Err(err) => Err("*** Something went wrong 3:\n\t" + err)
      case Ok(op) => Unaries(ops[..|ops| - 1], ExpUnr(op, e))
    else Ok(Applied(ops, e))
  }

  /** Fold the whole expression stack into `e`: each step pops an operator
      and the top expression and makes `ExpBin(e, op, top)`. */
  function Collapse(exprs: seq<Expression>, ops: seq<Token>, e: Expression): (r: Result<Applied>)
    requires AllOperators(ops)
    ensures r.Ok? ==> AllOperators(r.value.ops)
    decreases |exprs|
  {
    if exprs == [] then Ok(Applied(ops, e))
    else if ops == [] then Err("*** No operator ***")
    else match GetBinop(ops[|ops| - 1].value)
      case Err(err) => Err("*** Something went wrong 3:\n\t" + err)
      case Ok(op) => Collapse(exprs[..|exprs| - 1], ops[..|ops| - 1], ExpBin(e, op, exprs[|exprs| - 1]))
  }

  /** One step of `Collapse` when both stacks have a top. */
  lemma CollapseUnfold(exprs: seq<Expression>, ops: seq<Token>, e: Expression)
    requires AllOperators(ops) && exprs != [] && ops != []
    requires GetBinop(ops[|ops| - 1].value).Ok?
    ensures Collapse(exprs, ops, e)
         == Collapse(exprs[..|exprs| - 1], ops[..|ops| - 1],
                     ExpBin(e, GetBinop(ops[|ops| - 1].value).value, exprs[|exprs| - 1]))
  {
  }

  /** The body of the reduction's loop for one popped token. */
  function ReduceStep(token: Token, st: Reduction): (r: Result<Reduction>)
    requires AllOperators(st.ops)
    ensures r.Ok? ==> AllOperators(r.value.ops)
  {
    if token.Operator? then Ok(Reduction(st.exprs, st.ops + [token], token.unary))
    else if IsOperand(token) then
      if !st.pending then Ok(Reduction(st.exprs + [Leaf(token)], st.ops, true))
      else
        (match Unaries(st.ops, Leaf(token))
         case Err(err) => Err(err)
         case Ok(a) =>
           (match Collapse(st.exprs, a.ops, a.expression)
            case Err(err) => Err(err)
            case Ok(c) => Ok(Reduction([c.expression], c.ops, true))))
    else Ok(st)
  }

  /** `parseReversePolishNotation` on the tokens still to be popped. */
  function ReduceFrom(tokens: seq<Token>, st: Reduction): (r: Result<Expression>)
    requires AllOperators(st.ops)
    decreases |tokens|
  {
    if tokens == [] then
      if st.exprs == [] then Err("*** No expression ***") else Ok(st.exprs[|st.exprs| - 1])
    else
      match ReduceStep(tokens[|tokens| - 1], st)
      case Err(err) => Err(err)
      case Ok(st2) => ReduceFrom(tokens[..|tokens| - 1], st2)
  }

  function Reduce(postfix: seq<Token>): Result<Expression>
  {
    ReduceFrom(postfix, Reduction([], [], false))
  }

  /** What `parseShuntingYard` returns. */
  function ExpressionOf(tokens: seq<Token>): Result<Expression>
  {
    match Postfix(tokens)
    case Err(e) => Err(e)
    case Ok(postfix) => Reduce(postfix)
  }

  // ---------------------------------------------------------------------
  // Commands
  // ---------------------------------------------------------------------

  predicate IsColon(t: Token) { IsOperatorValue(t, ":") }

  predicate IsThen(t: Token) { t.Keyword? && t.value == "THEN" }

  /** `parseToCommand` takes `tokens.subList(1, thenIndex)` for an `IF`,
      which throws when the segment has no `THEN`.  This predicate holds
      when no segment the parser reaches is such an `IF`; it follows the
      parser's own recursion. */
  predicate ThenFollowsEveryIf(tokens: seq<Token>)
    decreases |tokens|
  {
    var semi := IndexWhere(tokens, IsColon);
    if semi >= 0 then ThenFollowsEveryIf(tokens[..semi]) && ThenFollowsEveryIf(tokens[semi + 1..])
    else if tokens == [] then true
    else
      var head := tokens[0];
      if head.Keyword? && head.value == "IF" then
        var thenIndex := IndexWhere(tokens, IsThen);
        thenIndex >= 0 && ThenFollowsEveryIf(tokens[thenIndex + 1..])
      else if head.Keyword? && head.value == "ONERR" then ThenFollowsEveryIf(tokens[1..])
      else if head.NumberLiteral? then ThenFollowsEveryIf(tokens[1..])
      else true
  }

  /** `parseToExpression`: an expression must start with an operand or an
      operator; anything else, or nothing, is an error. */
  function ParseToExpression(tokens: seq<Token>): (r: Result<Expression>)
    ensures tokens == [] ==> r.Err?
    ensures tokens != [] && (IsOperand(tokens[0]) || tokens[0].Operator?) ==> r == ExpressionOf(tokens)
    ensures tokens != [] && !(IsOperand(tokens[0]) || tokens[0].Operator?) ==> r.Err?
  {
    if tokens == [] then Err("*** No valid expression ***")
    else
      var first := tokens[0];
      if IsOperand(first) || first.Operator? then ExpressionOf(tokens)
      else Err("*** Unsupported expression: " + TokenText(first))
  }

  /** `parseToPrintCommand`. */
  function ParseToPrintCommand(tokens: seq<Token>): (r: Result<Command>)
    ensures r.Ok? <==> ParseToExpression(tokens).Ok?
    ensures r.Ok? ==> r.value == Print(ParseToExpression(tokens).value)
  {
    match ParseToExpression(tokens)
    case Ok(e) => Ok(Print(e))
    case Err(err) => Err("*** Print error: ***\n\t" + err)
  }

  /** `parseToAssignment`: an identifier, `=`, then an expression. */
  function ParseToAssignment(tokens: seq<Token>): (r: Result<Command>)
    ensures r.Ok? <==> |tokens| > 2 && tokens[0].Identifier? && IsOperatorValue(tokens[1], "=")
                       && ParseToExpression(tokens[2..]).Ok?
    ensures r.Ok? ==> r.value == Assignment(tokens[0].value, ParseToExpression(tokens[2..]).value)
  {
    if |tokens| > 2 then
      var head := tokens[0];
      if !head.Identifier? then Err("*** " + TokenText(head) + " is not a valid identifier ***")
      else if !IsOperatorValue(tokens[1], "=") then Err("*** no equal sign in assignment to " + TokenText(head) + " ***")
      else
        match ParseToExpression(tokens[2..])
        case Ok(e) => Ok(Assignment(head.value, e))
        case Err(err) => Err(err)
    else Err("*** Not enough tokens in " + TokenListText(tokens) + " ***")
  }

  /** The line number after `RUN` or `GOTO`: the second token's value when
      it is a number, 0 otherwise. */
  function LineArgument(tokens: seq<Token>): int
  {
    if |tokens| > 1 && tokens[1].NumberLiteral? then tokens[1].number else 0
  }

  /** `parseToCommand`. */
  function ParseToCommand(tr: TokenResult): (r: CommandResult)
    requires ThenFollowsEveryIf(tr.tokens)
    ensures r.original == tr.original
    decreases |tr.tokens|, 2
  {
    var tokens := tr.tokens;
    var semi := IndexWhere(tokens, IsColon);
    if semi >= 0 then
      CommandResult(tr.original, Ok(Multiple([
        ParseToCommand(TokenResult(tr.original, tokens[..semi])),
        ParseToCommand(TokenResult(tr.original, tokens[semi + 1..]))])))
    else if tokens == [] then
      CommandResult(tr.original, Err("*** No valid tokens ***\n\t original: " + tr.original))
    else
      var head := tokens[0];
      match head
      case Keyword(w) => ParseKeywordCommand(tr)
      case NumberLiteral(n) =>
        var command := ParseToCommand(TokenResult(tr.original, tokens[1..]));
        if command.command.Ok? then CommandResult(tr.original, Ok(StoreCommand(n, command.command.value)))
        else CommandResult(tr.original, command.command)
      case Identifier(_) => CommandResult(tr.original, ParseToAssignment(tokens))
      case _ => CommandResult(tr.original, Err("*** Not a keyword: " + TokenText(head)))
  }

  /** The keyword branch of `parseToCommand`, for a line without `:`. */
  function ParseKeywordCommand(tr: TokenResult): (r: CommandResult)
    requires tr.tokens != [] && tr.tokens[0].Keyword? && IndexWhere(tr.tokens, IsColon) == -1
    requires ThenFollowsEveryIf(tr.tokens)
    ensures r.original == tr.original
    decreases |tr.tokens|, 1
  {
    var tokens := tr.tokens;
    var w := tokens[0].value;
    if w == "PRINT" || w == "?" then CommandResult(tr.original, ParseToPrintCommand(tokens[1..]))
    else if w == "REM" then CommandResult(tr.original, Ok(ExpREM))
    else if w == "LET" then CommandResult(tr.original, ParseToAssignment(tokens[1..]))
    else if w == "RUN" then CommandResult(tr.original, Ok(Run(LineArgument(tokens))))
    else if w == "LIST" then CommandResult(tr.original, Ok(ListCommand))
    else if w == "GOTO" then CommandResult(tr.original, Ok(GoTo(LineArgument(tokens))))
    else if w == "IF" then ParseIfCommand(tr)
    else if w == "ONERR" then
      var res := ParseToCommand(TokenResult(tr.original, tokens[1..]));
      if res.command.Ok? then CommandResult(tr.original, Ok(OnErr(res.command.value)))
      else res
    else CommandResult(tr.original, Err("*** Unsupported command: " + TokenText(tokens[0])))
  }

  /** The `IF` branch of `parseToCommand`: the condition runs from after
      `IF` up to `THEN`, the consequent is the rest of the line. */
  function ParseIfCommand(tr: TokenResult): (r: CommandResult)
    requires tr.tokens != [] && tr.tokens[0].Keyword? && tr.tokens[0].value == "IF"
    requires ThenFollowsEveryIf(tr.tokens) && IndexWhere(tr.tokens, IsColon) == -1
    ensures r.original == tr.original
    decreases |tr.tokens|, 0
  {
    var tokens := tr.tokens;
    var thenIndex := IndexWhere(tokens, IsThen);
    var ifExpRes := ExpressionOf(tokens[1..thenIndex]);
    var thenExpRes := ParseToCommand(TokenResult(tr.original, tokens[thenIndex + 1..]));
    if !ifExpRes.Ok? || !thenExpRes.command.Ok? then
      CommandResult(tr.original, Err("*** No valid expression ***\n\t original: " + tr.original))
    else CommandResult(tr.original, Ok(If(ifExpRes.value, thenExpRes)))
  }

  // ---------------------------------------------------------------------
  // The two algorithms over mutable lists
  // ---------------------------------------------------------------------

  predicate TopIs(top: Option<Token>, v: string)
  {
    top.Some? && IsOperatorValue(top.value, v)
  }

  predicate TopIsParenthesis(top: Option<Token>)
  {
    TopIs(top, "(") || TopIs(top, ")")
  }

  /** The `)` case of the yard's loop. */
  method PopToParenthesis(output: ListStack<Token>, operators: ListStack<Token>) returns (r: Result<Yard>)
    requires output != operators && AllOperators(operators.items)
    modifies output, operators
    ensures r == PopToParen(old(Yard(output.items, operators.items)))
    ensures r.Ok? ==> Yard(output.items, operators.items) == r.value
  {
    ghost var y := Yard(output.items, operators.items);
    while !TopIs(operators.Peek(), "(")
      invariant AllOperators(operators.items)
      invariant PopToParen(Yard(output.items, operators.items)) == PopToParen(y)
      decreases |operators.items|
    {
      var top := operators.Pop();
      if top.None? {
        return Err("*** No matching '(' ***");
      }
      output.Push(top.value);
    }
    var _ := operators.Pop();
    r := Ok(Yard(output.items, operators.items));
  }

  /** The popping loop run before a binary operator is pushed. */
  method PopHigherOperators(output: ListStack<Token>, operators: ListStack<Token>, priority: int) returns (r: Result<Yard>)
    requires output != operators && AllOperators(operators.items)
    modifies output, operators
    ensures r == PopHigher(old(Yard(output.items, operators.items)), priority)
    ensures r.Ok? ==> Yard(output.items, operators.items) == r.value
  {
    ghost var y := Yard(output.items, operators.items);
    while operators.items != [] && !TopIsParenthesis(operators.Peek())
      invariant AllOperators(operators.items)
      invariant PopHigher(Yard(output.items, operators.items), priority) == PopHigher(y, priority)
      decreases |operators.items|
    {
      var opStackResult := GetBinop(operators.Peek().value.value);
      if opStackResult.Err? {
        return Err("*** Something went wrong 2:\n\t" + opStackResult.error);
      }
      if priority <= PriorityBinop(opStackResult.value) {
        var top := operators.Pop();
        output.Push(top.value);
      } else {
        break;
      }
    }
    r := Ok(Yard(output.items, operators.items));
  }

  /** One iteration of the yard's `forEachIndexed`. */
  method ShuntToken(tokens: seq<Token>, index: nat, output: ListStack<Token>, operators: ListStack<Token>) returns (r: Result<Yard>)
    requires index < |tokens| && output != operators && AllOperators(operators.items)
    modifies output, operators
    ensures r == YardStep(tokens, index, old(Yard(output.items, operators.items)))
    ensures r.Ok? ==> Yard(output.items, operators.items) == r.value
  {
    var token := tokens[index];
    match token {
      case Identifier(_) =>
        output.Push(token);
      case StringLiteral(_) =>
        output.Push(token);
      case NumberLiteral(_) =>
        output.Push(token);
      case Operator(v, _) =>
        if v == "(" {
          operators.Push(token);
        } else if v == ")" {
          r := PopToParenthesis(output, operators);
          return;
        } else if index == 0 || (tokens[index - 1].Operator? && tokens[index - 1].value != ")") {
          var tokOpRes := GetUnop(v);
          if tokOpRes.Err? {
            return Err("*** Error in expression parsing ***\n\t" + tokOpRes.error);
          }
          operators.Push(Operator(v, true));
        } else {
          var tokOpRes := GetBinop(v);
          if tokOpRes.Err? {
            return Err("*** Error in expression parsing ***\n\t" + tokOpRes.error);
          }
          r := PopHigherOperators(output, operators, PriorityBinop(tokOpRes.value));
          if r.Err? {
            return;
          }
          operators.Push(token);
        }
      case EndOfLine =>
      case Keyword(_) =>
        return Err("*** Shunting yard can not handle: " + TokenText(token));
      case Illegal(_) =>
        return Err("*** Shunting yard can not handle: " + TokenText(token));
    }
    r := Ok(Yard(output.items, operators.items));
  }

  method ParseShuntingYard(tokens: seq<Token>) returns (r: Result<Expression>)
    ensures r == ExpressionOf(tokens)
  {
    var output := new ListStack<Token>();
    var operators := new ListStack<Token>();
    var index := 0;
    while index < |tokens|
      invariant 0 <= index <= |tokens|
      invariant fresh(output) && fresh(operators) && output != operators
      invariant AllOperators(operators.items)
      invariant YardFrom(tokens, index, Yard(output.items, operators.items)) == Postfix(tokens)
    {
      var step := ShuntToken(tokens, index, output, operators);
      if step.Err? {
        return Err(step.error);
      }
      index := index + 1;
    }
    ghost var postfix := output.items + Reversed(operators.items);
    while operators.items != []
      invariant AllOperators(operators.items)
      invariant output.items + Reversed(operators.items) == postfix
      decreases |operators.items|
    {
      ghost var ops := operators.items;
      var top := operators.Pop();
      output.Push(top.value);
      assert Reversed(ops) == [top.value] + Reversed(operators.items);
    }
    assert output.items == postfix;
    r := ParseReversePolishNotation(output);
  }

  /** The first inner loop of the reduction: unary operators on top of the
      stack wrap the new operand. */
  method ApplyUnaryOperators(operatorStack: ListStack<Token>, leaf: Expression) returns (r: Result<Applied>)
    requires AllOperators(operatorStack.items)
    modifies operatorStack
    ensures r == Unaries(old(operatorStack.items), leaf)
    ensures r.Ok? ==> operatorStack.items == r.value.ops
  {
    var expression := leaf;
    while operatorStack.items != [] && operatorStack.Peek().value.unary
      invariant AllOperators(operatorStack.items)
      invariant Unaries(operatorStack.items, expression) == Unaries(old(operatorStack.items), leaf)
      decreases |operatorStack.items|
    {
      var top := operatorStack.Pop();
      var operatorResult := GetUnop(top.value.value);
      if operatorResult.Err? {
        return Err("*** Something went wrong 3:\n\t" + operatorResult.error);
      }
      expression := ExpUnr(operatorResult.value, expression);
    }
    r := Ok(Applied(operatorStack.items, expression));
  }

  /** The second inner loop of the reduction: the expression stack is
      folded into the new operand, one stacked operator per expression. */
  method CollapseStack(expressionStack: ListStack<Expression>, operatorStack: ListStack<Token>, e: Expression) returns (r: Result<Applied>)
    requires AllOperators(operatorStack.items)
    modifies expressionStack, operatorStack
    ensures r == Collapse(old(expressionStack.items), old(operatorStack.items), e)
    ensures r.Ok? ==> operatorStack.items == r.value.ops && expressionStack.items == []
  {
    var expression := e;
    while expressionStack.items != []
      invariant AllOperators(operatorStack.items)
      invariant Collapse(expressionStack.items, operatorStack.items, expression)
             == Collapse(old(expressionStack.items), old(operatorStack.items), e)
      decreases |expressionStack.items|
    {
      ghost var exprs, ops := expressionStack.items, operatorStack.items;
      var top := operatorStack.Pop();
      if top.None? {
        assert Collapse(exprs, ops, expression) == Err("*** No operator ***");
        return Err("*** No operator ***");
      }
      var operatorResult := GetBinop(top.value.value);
      var rightOperand := expressionStack.Pop();
      if operatorResult.Err? {
        assert Collapse(exprs, ops, expression) == Err("*** Something went wrong 3:\n\t" + operatorResult.error);
        return Err("*** Something went wrong 3:\n\t" + operatorResult.error);
      }
      CollapseUnfold(exprs, ops, expression);
      expression := ExpBin(expression, operatorResult.value, rightOperand.value);
    }
    r := Ok(Applied(operatorStack.items, expression));
  }

  /** One iteration of the reduction's loop. */
  method ReduceToken(token: Token, expressionStack: ListStack<Expression>, operatorStack: ListStack<Token>, pendingOperand: bool) returns (r: Result<bool>)
    requires expressionStack as object != operatorStack && AllOperators(operatorStack.items)
    modifies expressionStack, operatorStack
    ensures var step := ReduceStep(token, old(Reduction(expressionStack.items, operatorStack.items, pendingOperand)));
      (r.Ok? <==> step.Ok?) && (r.Err? ==> step == Err(r.error))
      && (r.Ok? ==> step.value == Reduction(expressionStack.items, operatorStack.items, r.value))
  {
    if token.Operator? {
      operatorStack.Push(token);
      return Ok(token.unary);
    } else if IsOperand(token) {
      var expression := Leaf(token);
      if pendingOperand {
        var unaries := ApplyUnaryOperators(operatorStack, expression);
        if unaries.Err? {
          return Err(unaries.error);
        }
        var collapsed := CollapseStack(expressionStack, operatorStack, unaries.value.expression);
        if collapsed.Err? {
          return Err(collapsed.error);
        }
        expression := collapsed.value.expression;
      }
      expressionStack.Push(expression);
      return Ok(true);
    }
    r := Ok(pendingOperand);
  }

  /** The list `tokens` is consumed from its end; on an error the rest of
      it is left in place. */
  method ParseReversePolishNotation(tokens: ListStack<Token>) returns (r: Result<Expression>)
    modifies tokens
    ensures r == Reduce(old(tokens.items))
    ensures tokens.items <= old(tokens.items)
  {
    var expressionStack := new ListStack<Expression>();
    var operatorStack := new ListStack<Token>();
    var pendingOperand := false;
    while tokens.items != []
      invariant fresh(expressionStack) && fresh(operatorStack)
      invariant tokens.items <= old(tokens.items)
      invariant AllOperators(operatorStack.items)
      invariant ReduceFrom(tokens.items, Reduction(expressionStack.items, operatorStack.items, pendingOperand))
             == Reduce(old(tokens.items))
      decreases |tokens.items|
    {
      var popped := tokens.Pop();
      var step := ReduceToken(popped.value, expressionStack, operatorStack, pendingOperand);
      if step.Err? {
        return Err(step.error);
      }
      pendingOperand := step.value;
    }
    var last := expressionStack.Pop();
    if last.None? {
      r := Err("*** No expression ***");
    } else {
      r := Ok(last.value);
    }
  }

  // ---------------------------------------------------------------------
  // Properties
  // ---------------------------------------------------------------------

  lemma {:induction false} OperandsAppend(a: seq<Token>, b: seq<Token>)
    ensures Operands(a + b) == Operands(a) + Operands(b)
    decreases |a|
  {
    if a == [] {
      assert a + b == b;
    } else {
      var head := if IsOperand(a[0]) then [Leaf(a[0])] else [];
      assert (a + b)[0] == a[0];
      assert (a + b)[1..] == a[1..] + b;
      OperandsAppend(a[1..], b);
      calc {
        Operands(a + b);
        head + Operands(a[1..] + b);
        head + (Operands(a[1..]) + Operands(b));
        (head + Operands(a[1..])) + Operands(b);
      }
    }
  }

  lemma {:induction false} OperandsOfOperators(ops: seq<Token>)
    requires AllOperators(ops)
    ensures Operands(ops) == [] && Operands(Reversed(ops)) == []
    decreases |ops|
  {
    if ops != [] {
      OperandsOfOperators(ops[1..]);
      OperandsOfOperators(ops[..|ops| - 1]);
      assert Reversed(ops)[1..] == Reversed(ops[..|ops| - 1]);
    }
  }

  /** Moving the top operator to the output adds no operand. */
  lemma MoveTopKeepsOperands(y: Yard)
    requires AllOperators(y.operators) && y.operators != []
    ensures Operands(y.output + [y.operators[|y.operators| - 1]]) == Operands(y.output)
  {
    OperandsAppend(y.output, [y.operators[|y.operators| - 1]]);
  }

  lemma {:induction false} PopToParenKeepsOperands(y: Yard)
    requires AllOperators(y.operators)
    ensures PopToParen(y).Ok? ==> Operands(PopToParen(y).value.output) == Operands(y.output)
    decreases |y.operators|
  {
    if y.operators != [] && y.operators[|y.operators| - 1].value != "(" {
      MoveTopKeepsOperands(y);
      PopToParenKeepsOperands(Yard(y.output + [y.operators[|y.operators| - 1]], y.operators[..|y.operators| - 1]));
    }
  }

  lemma {:induction false} PopHigherKeepsOperands(y: Yard, priority: int)
    requires AllOperators(y.operators)
    ensures PopHigher(y, priority).Ok? ==> Operands(PopHigher(y, priority).value.output) == Operands(y.output)
    decreases |y.operators|
  {
    if y.operators != [] {
      MoveTopKeepsOperands(y);
      PopHigherKeepsOperands(Yard(y.output + [y.operators[|y.operators| - 1]], y.operators[..|y.operators| - 1]), priority);
    }
  }

  /** One yard step adds to the output exactly the operand it reads, if any. */
  lemma YardStepOperands(tokens: seq<Token>, index: nat, y: Yard)
    requires index < |tokens| && AllOperators(y.operators)
    ensures YardStep(tokens, index, y).Ok? ==>
      Operands(YardStep(tokens, index, y).value.output) == Operands(y.output) + Operands([tokens[index]])
  {
    var token := tokens[index];
    OperandsAppend(y.output, [token]);
    if token.Operator? {
      PopToParenKeepsOperands(y);
      if token.value != "(" && token.value != ")" && !IsUnaryPosition(tokens, index) && GetBinop(token.value).Ok? {
        PopHigherKeepsOperands(y, PriorityBinop(GetBinop(token.value).value));
      }
    }
  }

  lemma {:induction false} YardFromOperands(tokens: seq<Token>, index: nat, y: Yard)
    requires index <= |tokens| && AllOperators(y.operators)
    requires Operands(y.output) == Operands(tokens[..index])
    ensures YardFrom(tokens, index, y).Ok? ==> Operands(YardFrom(tokens, index, y).value) == Operands(tokens)
    decreases |tokens| - index
  {
    if index == |tokens| {
      OperandsOfOperators(y.operators);
      OperandsAppend(y.output, Reversed(y.operators));
      assert tokens[..index] == tokens;
    } else {
      YardStepOperands(tokens, index, y);
      var step := YardStep(tokens, index, y);
      if step.Ok? {
        assert tokens[..index + 1] == tokens[..index] + [tokens[index]];
        OperandsAppend(tokens[..index], [tokens[index]]);
        YardFromOperands(tokens, index + 1, step.value);
      }
    }
  }

  /** The shunting yard keeps every operand, in the order of the input. */
  lemma PostfixKeepsOperands(tokens: seq<Token>)
    ensures Postfix(tokens).Ok? ==> Operands(Postfix(tokens).value) == Operands(tokens)
  {
    assert tokens[..0] == [];
    YardFromOperands(tokens, 0, Yard([], []));
  }

  /** The leaves of the expression stack, topmost expression first: the
      top holds the leftmost operands read so far. */
  function LeavesTopDown(exprs: seq<Expression>): seq<Expression>
  {
    if exprs == [] then [] else Leaves(exprs[|exprs| - 1]) + LeavesTopDown(exprs[..|exprs| - 1])
  }

  lemma {:induction false} CollapseLeaves(exprs: seq<Expression>, ops: seq<Token>, e: Expression)
    requires AllOperators(ops)
    ensures Collapse(exprs, ops, e).Ok? ==>
      Leaves(Collapse(exprs, ops, e).value.expression) == Leaves(e) + LeavesTopDown(exprs)
    decreases |exprs|
  {
    if exprs != [] && ops != [] && GetBinop(ops[|ops| - 1].value).Ok? {
      var op := GetBinop(ops[|ops| - 1].value).value;
      var top := exprs[|exprs| - 1];
      CollapseUnfold(exprs, ops, e);
      CollapseLeaves(exprs[..|exprs| - 1], ops[..|ops| - 1], ExpBin(e, op, top));
      AppendAssociates(Leaves(e), Leaves(top), LeavesTopDown(exprs[..|exprs| - 1]));
    }
  }

  /** One reduction step puts the operand it reads in front of the leaves
      on the expression stack. */
  lemma ReduceStepLeaves(token: Token, st: Reduction)
    requires AllOperators(st.ops)
    ensures ReduceStep(token, st).Ok? ==>
      LeavesTopDown(ReduceStep(token, st).value.exprs) == Operands([token]) + LeavesTopDown(st.exprs)
  {
    assert Operands([token]) == (if IsOperand(token) then [Leaf(token)] else []);
    if IsOperand(token) {
      var leaf := Leaf(token);
      assert Leaves(leaf) == [leaf];
      assert (st.exprs + [leaf])[..|st.exprs|] == st.exprs;
      if st.pending && Unaries(st.ops, leaf).Ok? {
        var a := Unaries(st.ops, leaf).value;
        CollapseLeaves(st.exprs, a.ops, a.expression);
        if Collapse(st.exprs, a.ops, a.expression).Ok? {
          var c := Collapse(st.exprs, a.ops, a.expression).value;
          assert LeavesTopDown([c.expression]) == Leaves(c.expression);
        }
      }
    }
  }

  lemma {:induction false} ReduceFromLeaves(tokens: seq<Token>, st: Reduction)
    requires AllOperators(st.ops)
    ensures ReduceFrom(tokens, st).Ok? ==>
      Leaves(ReduceFrom(tokens, st).value) <= Operands(tokens) + LeavesTopDown(st.exprs)
    decreases |tokens|
  {
    if tokens == [] {
    } else {
      var t := tokens[|tokens| - 1];
      var rest := tokens[..|tokens| - 1];
      ReduceStepLeaves(t, st);
      if ReduceStep(t, st).Ok? {
        var st2 := ReduceStep(t, st).value;
        assert ReduceFrom(tokens, st) == ReduceFrom(rest, st2);
        ReduceFromLeaves(rest, st2);
        assert tokens == rest + [t];
        OperandsAppend(rest, [t]);
        AppendAssociates(Operands(rest), Operands([t]), LeavesTopDown(st.exprs));
        assert Operands(rest) + LeavesTopDown(st2.exprs) == Operands(tokens) + LeavesTopDown(st.exprs);
      } else {
        assert ReduceFrom(tokens, st).Err?;
      }
    }
  }

  /** Every leaf of a parsed expression is an operand of the input, and the
      leaves appear in the input's order: the tree's leaves are a prefix of
      the input's operands (an operand can be dropped, as in `(B +) A`, never
      invented or reordered). */
  lemma ExpressionLeavesAreOperands(tokens: seq<Token>)
    ensures ExpressionOf(tokens).Ok? ==> Leaves(ExpressionOf(tokens).value) <= Operands(tokens)
  {
    PostfixKeepsOperands(tokens);
    if Postfix(tokens).Ok? {
      ReduceFromLeaves(Postfix(tokens).value, Reduction([], [], false));
    }
  }

  predicate NoOpenParen(ops: seq<Token>)
  {
    forall k :: 0 <= k < |ops| ==> !IsOperatorValue(ops[k], "(")
  }

  lemma {:induction false} PopToParenWithoutOpen(y: Yard)
    requires AllOperators(y.operators) && NoOpenParen(y.operators)
    ensures PopToParen(y).Err?
    decreases |y.operators|
  {
    if y.operators != [] {
      PopToParenWithoutOpen(Yard(y.output + [y.operators[|y.operators| - 1]], y.operators[..|y.operators| - 1]));
    }
  }

  lemma {:induction false} PopHigherKeepsNoOpen(y: Yard, priority: int)
    requires AllOperators(y.operators) && NoOpenParen(y.operators)
    ensures PopHigher(y, priority).Ok? ==> NoOpenParen(PopHigher(y, priority).value.operators)
    decreases |y.operators|
  {
    if y.operators != [] {
      PopHigherKeepsNoOpen(Yard(y.output + [y.operators[|y.operators| - 1]], y.operators[..|y.operators| - 1]), priority);
    }
  }

  lemma {:induction false} CloseBeforeOpenFrom(tokens: seq<Token>, index: nat, y: Yard, k: nat)
    requires index <= k < |tokens| && IsOperatorValue(tokens[k], ")")
    requires forall j :: index <= j < k ==> !IsOperatorValue(tokens[j], "(")
    requires AllOperators(y.operators) && NoOpenParen(y.operators)
    ensures YardFrom(tokens, index, y).Err?
    decreases |tokens| - index
  {
    if index < k {
      var step := YardStep(tokens, index, y);
      YardStepNoOpen(tokens, index, y);
      if step.Ok? {
        YardFromUnfold(tokens, index, y, step.value);
        assert forall j :: index + 1 <= j < k ==> !IsOperatorValue(tokens[j], "(");
        CloseBeforeOpenFrom(tokens, index + 1, step.value, k);
      } else {
        YardFromStepErr(tokens, index, y);
      }
    } else {
      CloseWithoutOpen(tokens, index, y);
    }
  }

  /** A `)` reached while no `(` is stacked fails the yard. */
  lemma CloseWithoutOpen(tokens: seq<Token>, index: nat, y: Yard)
    requires index < |tokens| && IsOperatorValue(tokens[index], ")")
    requires AllOperators(y.operators) && NoOpenParen(y.operators)
    ensures YardFrom(tokens, index, y).Err?
  {
    PopToParenWithoutOpen(y);
    YardStepClose(tokens, index, y);
    YardFromStepErr(tokens, index, y);
  }

  /** A failing step fails the whole yard. */
  lemma YardFromStepErr(tokens: seq<Token>, index: nat, y: Yard)
    requires index < |tokens| && AllOperators(y.operators) && YardStep(tokens, index, y).Err?
    ensures YardFrom(tokens, index, y).Err?
  {
  }

  /** The yard's step on `)` pops to the matching `(`. */
  lemma YardStepClose(tokens: seq<Token>, index: nat, y: Yard)
    requires index < |tokens| && AllOperators(y.operators) && IsOperatorValue(tokens[index], ")")
    ensures YardStep(tokens, index, y) == PopToParen(y)
  {
  }

  /** A yard step on anything but `(` stacks no `(`. */
  lemma YardStepNoOpen(tokens: seq<Token>, index: nat, y: Yard)
    requires index < |tokens| && !IsOperatorValue(tokens[index], "(")
    requires AllOperators(y.operators) && NoOpenParen(y.operators)
    ensures YardStep(tokens, index, y).Ok? ==> NoOpenParen(YardStep(tokens, index, y).value.operators)
  {
    var token := tokens[index];
    PopToParenWithoutOpen(y);
    if token.Operator? && token.value != "(" && token.value != ")" && !IsUnaryPosition(tokens, index) {
      if GetBinop(token.value).Ok? {
        PopHigherKeepsNoOpen(y, PriorityBinop(GetBinop(token.value).value));
      }
    }
  }

  /** A stacked operator that `PopHigher` moves for an incoming operator of
      priority `priority`: no parenthesis, and a binary operator at least
      as tight. */
  predicate Outranks(t: Token, priority: int)
  {
    t.Operator? && t.value != "(" && t.value != ")"
    && GetBinop(t.value).Ok? && priority <= PriorityBinop(GetBinop(t.value).value)
  }

  /** A stacked operator that `PopHigher` stops at: a parenthesis, or a
      binary operator of lower priority. */
  predicate StopsPopping(t: Token, priority: int)
  {
    t.Operator? && (t.value == "(" || t.value == ")"
      || (GetBinop(t.value).Ok? && PriorityBinop(GetBinop(t.value).value) < priority))
  }

  /** Moving the top to the output, then the part above `j` of what is
      left, moves the whole part above `j`. */
  lemma MoveTopThenRest(output: seq<Token>, ops: seq<Token>, j: nat)
    requires j < |ops|
    ensures (output + [ops[|ops| - 1]]) + Reversed(ops[..|ops| - 1][j..]) == output + Reversed(ops[j..])
  {
    var n := |ops|;
    assert ops[j..][..n - j - 1] == ops[..n - 1][j..];
    assert Reversed(ops[j..]) == [ops[n - 1]] + Reversed(ops[..n - 1][j..]);
    AppendAssociates(output, [ops[n - 1]], Reversed(ops[..n - 1][j..]));
  }

  /** What a successful `PopHigher` leaves in `r`: a bottom part of the
      stack; the part above went to the output top first, and every operator
      of it outranks the incoming one. */
  predicate PoppedAbove(y: Yard, r: Yard, priority: int)
  {
    |r.operators| <= |y.operators|
    && r.operators == y.operators[..|r.operators|]
    && r.output == y.output + Reversed(y.operators[|r.operators|..])
    && (forall k :: |r.operators| <= k < |y.operators| ==> Outranks(y.operators[k], priority))
  }

  /** An operator stack that is empty or whose top stops `PopHigher`. */
  predicate EndsWithStopper(ops: seq<Token>, priority: int)
  {
    ops == [] || StopsPopping(ops[|ops| - 1], priority)
  }

  /** What a successful `PopHigher` leaves on top, if anything, stops it. */
  lemma {:induction false} PopHigherLeavesStopper(y: Yard, priority: int)
    requires AllOperators(y.operators)
    ensures PopHigher(y, priority).Ok? ==> EndsWithStopper(PopHigher(y, priority).value.operators, priority)
    decreases |y.operators|
  {
    var n := |y.operators|;
    if n != 0 && Outranks(y.operators[n - 1], priority) {
      var y2 := Yard(y.output + [y.operators[n - 1]], y.operators[..n - 1]);
      PopHigherUnfold(y, priority);
      PopHigherLeavesStopper(y2, priority);
    } else if n != 0 && PopHigher(y, priority).Ok? {
      var top := y.operators[n - 1];
      assert PopHigher(y, priority) == Ok(y);
      if top.value != "(" && top.value != ")" {
        var b := GetBinop(top.value);
        assert b.Ok? && PriorityBinop(b.value) < priority;
      }
    }
  }

  /** `PopHigher` moves an outranking top and carries on. */
  lemma PopHigherUnfold(y: Yard, priority: int)
    requires AllOperators(y.operators) && y.operators != []
    requires Outranks(y.operators[|y.operators| - 1], priority)
    ensures PopHigher(y, priority)
      == PopHigher(Yard(y.output + [y.operators[|y.operators| - 1]], y.operators[..|y.operators| - 1]), priority)
  {
  }

  /** `PopHigher` stops, or fails, at a top that does not outrank. */
  lemma PopHigherStops(y: Yard, priority: int)
    requires AllOperators(y.operators)
    requires y.operators == [] || !Outranks(y.operators[|y.operators| - 1], priority)
    ensures PopHigher(y, priority).Ok? ==> PoppedAbove(y, PopHigher(y, priority).value, priority)
  {
    var n := |y.operators|;
    if PopHigher(y, priority).Ok? {
      assert PopHigher(y, priority).value == y;
      assert y.operators[..n] == y.operators;
      assert y.operators[n..] == [];
      assert y.output + Reversed(y.operators[n..]) == y.output;
    }
  }

  /** Popping the top first, then the rest, pops the whole part above. */
  lemma PoppedAboveStep(y: Yard, r: Yard, priority: int)
    requires y.operators != [] && Outranks(y.operators[|y.operators| - 1], priority)
    requires PoppedAbove(Yard(y.output + [y.operators[|y.operators| - 1]], y.operators[..|y.operators| - 1]), r, priority)
    ensures PoppedAbove(y, r, priority)
  {
    var n := |y.operators|;
    var below := y.operators[..n - 1];
    var j := |r.operators|;
    assert r.operators == below[..j] == y.operators[..j];
    assert r.output == (y.output + [y.operators[n - 1]]) + Reversed(below[j..]);
    MoveTopThenRest(y.output, y.operators, j);
    OutranksWithTop(y.operators, below, j, priority);
  }

  /** The operators above `j` outrank, when the top does and so do those
      above `j` in the stack below the top. */
  lemma OutranksWithTop(ops: seq<Token>, below: seq<Token>, j: nat, priority: int)
    requires ops != [] && below == ops[..|ops| - 1] && j <= |below|
    requires Outranks(ops[|ops| - 1], priority)
    requires forall k :: j <= k < |below| ==> Outranks(below[k], priority)
    ensures forall k :: j <= k < |ops| ==> Outranks(ops[k], priority)
  {
    forall k | j <= k < |ops|
      ensures Outranks(ops[k], priority)
    {
      if k < |below| {
        assert ops[k] == below[k];
      }
    }
  }

  /** What `PopHigher` does when it succeeds (see `PoppedAbove`); in
      particular what it leaves on top, if anything, stops it. */
  lemma PopHigherOutput(y: Yard, priority: int)
    requires AllOperators(y.operators)
    ensures PopHigher(y, priority).Ok? ==>
      var r := PopHigher(y, priority).value;
      PoppedAbove(y, r, priority) && EndsWithStopper(r.operators, priority)
  {
    PopHigherPopsAbove(y, priority);
    PopHigherLeavesStopper(y, priority);
  }

  lemma {:induction false} PopHigherPopsAbove(y: Yard, priority: int)
    requires AllOperators(y.operators)
    ensures PopHigher(y, priority).Ok? ==> PoppedAbove(y, PopHigher(y, priority).value, priority)
    decreases |y.operators|
  {
    var n := |y.operators|;
    if n != 0 && Outranks(y.operators[n - 1], priority) {
      var y2 := Yard(y.output + [y.operators[n - 1]], y.operators[..n - 1]);
      PopHigherUnfold(y, priority);
      PopHigherPopsAbove(y2, priority);
      if PopHigher(y2, priority).Ok? {
        PoppedAboveStep(y, PopHigher(y2, priority).value, priority);
      }
    } else {
      PopHigherStops(y, priority);
    }
  }

  /** One yard step on an operator other than a parenthesis.  In unary
      position it stacks the operator marked unary and leaves the output
      alone (and fails only on an unknown unary operator); elsewhere it runs
      `PopHigher` at the operator's binary priority and then stacks the
      operator as read.  For tokens as the tokenizer makes them (unary flag
      clear) the stacked flag is exactly the unary position. */
  lemma YardStepOperator(tokens: seq<Token>, index: nat, y: Yard)
    requires index < |tokens| && AllOperators(y.operators)
    requires tokens[index].Operator? && tokens[index].value != "(" && tokens[index].value != ")"
    ensures var v := tokens[index].value;
      var r := YardStep(tokens, index, y);
      (IsUnaryPosition(tokens, index) ==> (r.Ok? <==> GetUnop(v).Ok?))
      && (!IsUnaryPosition(tokens, index) ==>
            (r.Ok? <==> GetBinop(v).Ok? && PopHigher(y, PriorityBinop(GetBinop(v).value)).Ok?))
      && (r.Ok? ==>
            var ops := r.value.operators;
            |ops| > 0 && ops[|ops| - 1].Operator? && ops[|ops| - 1].value == v
            && (!tokens[index].unary ==> (ops[|ops| - 1].unary <==> IsUnaryPosition(tokens, index)))
            && (IsUnaryPosition(tokens, index) ==>
                  ops[|ops| - 1].unary && r.value.output == y.output && ops[..|ops| - 1] == y.operators)
            && (!IsUnaryPosition(tokens, index) ==>
                  ops[|ops| - 1] == tokens[index]
                  && Yard(r.value.output, ops[..|ops| - 1]) == PopHigher(y, PriorityBinop(GetBinop(v).value)).value))
  {
    var v := tokens[index].value;
    var r := YardStep(tokens, index, y);
    if r.Ok? {
      var ops := r.value.operators;
      if IsUnaryPosition(tokens, index) {
        assert ops == y.operators + [Operator(v, true)];
        assert ops[..|ops| - 1] == y.operators;
      } else {
        var below := PopHigher(y, PriorityBinop(GetBinop(v).value)).value.operators;
        assert ops == below + [tokens[index]];
        assert ops[..|ops| - 1] == below;
      }
    }
  }

  /** A `)` with no `(` before it is an error, whatever follows. */
  lemma UnmatchedCloseIsError(tokens: seq<Token>, k: nat)
    requires k < |tokens| && IsOperatorValue(tokens[k], ")")
    requires forall j :: 0 <= j < k ==> !IsOperatorValue(tokens[j], "(")
    ensures ExpressionOf(tokens).Err?
  {
    CloseBeforeOpenFrom(tokens, 0, Yard([], []), k);
  }

  // ---------------------------------------------------------------------
  // Worked examples of the expression parser
  // ---------------------------------------------------------------------

  function Num(n: int): Token { NumberLiteral(n) }

  function Op(v: string): Token { Operator(v, false) }

  /** `YardFrom` unfolded once, for concrete lists. */
  lemma YardFromUnfold(tokens: seq<Token>, index: nat, y: Yard, y2: Yard)
    requires index < |tokens| && AllOperators(y.operators) && YardStep(tokens, index, y) == Ok(y2)
    ensures YardFrom(tokens, index, y) == YardFrom(tokens, index + 1, y2)
  {
  }

  /** `ReduceFrom` unfolded once, for concrete lists. */
  lemma ReduceFromUnfold(tokens: seq<Token>, st: Reduction, st2: Reduction)
    requires tokens != [] && AllOperators(st.ops) && ReduceStep(tokens[|tokens| - 1], st) == Ok(st2)
    ensures ReduceFrom(tokens, st) == ReduceFrom(tokens[..|tokens| - 1], st2)
  {
  }

  lemma PrecedencePostfix()
    ensures Postfix([Num(2), Op("+"), Num(3), Op("*"), Num(4), EndOfLine])
         == Ok([Num(2), Num(3), Num(4), Op("*"), Op("+")])
  {
    var ts := [Num(2), Op("+"), Num(3), Op("*"), Num(4), EndOfLine];
    PrecedencePostfixHead(ts);
    PrecedencePostfixTail(ts);
  }

  /** The yard after `2+3`. */
  lemma PrecedencePostfixHead(ts: seq<Token>)
    requires ts == [Num(2), Op("+"), Num(3), Op("*"), Num(4), EndOfLine]
    ensures YardFrom(ts, 0, Yard([], [])) == YardFrom(ts, 3, Yard([Num(2), Num(3)], [Op("+")]))
  {
    var y1 := Yard([] + [Num(2)], []);
    var y2 := Yard(y1.output, [] + [Op("+")]);
    var y3 := Yard(y2.output + [Num(3)], y2.operators);
    YardFromUnfold(ts, 0, Yard([], []), y1);
    YardFromUnfold(ts, 1, y1, y2);
    YardFromUnfold(ts, 2, y2, y3);
    assert y3 == Yard([Num(2), Num(3)], [Op("+")]);
  }

  /** `*` stacks above `+` without popping it. */
  lemma PrecedencePostfixTail(ts: seq<Token>)
    requires ts == [Num(2), Op("+"), Num(3), Op("*"), Num(4), EndOfLine]
    ensures YardFrom(ts, 3, Yard([Num(2), Num(3)], [Op("+")])) == Ok([Num(2), Num(3), Num(4), Op("*"), Op("+")])
  {
    var y3 := Yard([Num(2), Num(3)], [Op("+")]);
    var y4 := Yard(y3.output, y3.operators + [Op("*")]);
    var y5 := Yard(y4.output + [Num(4)], y4.operators);
    YardFromUnfold(ts, 3, y3, y4);
    YardFromUnfold(ts, 4, y4, y5);
    YardFromUnfold(ts, 5, y5, y5);
    assert Reversed(y5.operators) == [Op("*"), Op("+")];
    assert YardFrom(ts, 6, y5) == Ok(y5.output + Reversed(y5.operators));
    assert y5.output + Reversed(y5.operators) == [Num(2), Num(3), Num(4), Op("*"), Op("+")];
  }

  /** The first two reduction steps of `2 3 4 * +`: both operators wait. */
  lemma PrecedenceReduceHead(p: seq<Token>)
    requires p == [Num(2), Num(3), Num(4), Op("*"), Op("+")]
    ensures ReduceFrom(p, Reduction([], [], false))
         == ReduceFrom(p[..3], Reduction([], [Op("+"), Op("*")], false))
  {
    var s1 := Reduction([], [] + [Op("+")], false);
    var s2 := Reduction([], s1.ops + [Op("*")], false);
    assert p[..4] == [Num(2), Num(3), Num(4), Op("*")];
    assert p[..4][..3] == p[..3];
    assert ReduceStep(Op("+"), Reduction([], [], false)) == Ok(s1);
    ReduceFromUnfold(p, Reduction([], [], false), s1);
    assert ReduceStep(Op("*"), s1) == Ok(s2);
    ReduceFromUnfold(p[..4], s1, s2);
    assert s2 == Reduction([], [Op("+"), Op("*")], false);
  }

  /** `4` starts an operand, `3` folds it with `*`, `2` takes the product
      with `+`. */
  lemma PrecedenceReduceTail(q: seq<Token>)
    requires q == [Num(2), Num(3), Num(4)]
    ensures ReduceFrom(q, Reduction([], [Op("+"), Op("*")], false))
         == Ok(ExpBin(ExpInt(2), Plus, ExpBin(ExpInt(3), Mult, ExpInt(4))))
  {
    var e34 := ExpBin(ExpInt(3), Mult, ExpInt(4));
    var s2 := Reduction([], [Op("+"), Op("*")], false);
    var s3 := Reduction(s2.exprs + [ExpInt(4)], s2.ops, true);
    var s4 := Reduction([e34], [Op("+")], true);
    var s5 := Reduction([ExpBin(ExpInt(2), Plus, e34)], [], true);
    assert q[..2] == [Num(2), Num(3)];
    assert q[..2][..1] == q[..1] && q[..1][..0] == [];
    ReduceFromUnfold(q, s2, s3);
    assert s2.ops[..1] == [Op("+")];
    assert Collapse(s3.exprs, s2.ops, ExpInt(3)) == Ok(Applied([Op("+")], e34));
    ReduceFromUnfold(q[..2], s3, s4);
    assert Collapse([e34], [Op("+")], ExpInt(2)) == Ok(Applied([], ExpBin(ExpInt(2), Plus, e34)));
    ReduceFromUnfold(q[..1], s4, s5);
    assert ReduceFrom([], s5) == Ok(ExpBin(ExpInt(2), Plus, e34));
  }

  lemma PrecedenceReduce()
    ensures Reduce([Num(2), Num(3), Num(4), Op("*"), Op("+")])
         == Ok(ExpBin(ExpInt(2), Plus, ExpBin(ExpInt(3), Mult, ExpInt(4))))
  {
    var p := [Num(2), Num(3), Num(4), Op("*"), Op("+")];
    PrecedenceReduceHead(p);
    PrecedenceReduceTail(p[..3]);
  }

  /** Multiplication binds tighter than addition: `2+3*4` is `2+(3*4)`. */
  lemma PrecedenceExample()
    ensures ExpressionOf([Num(2), Op("+"), Num(3), Op("*"), Num(4), EndOfLine])
         == Ok(ExpBin(ExpInt(2), Plus, ExpBin(ExpInt(3), Mult, ExpInt(4))))
  {
    PrecedencePostfix();
    PrecedenceReduce();
  }

  lemma RegroupPostfix()
    ensures Postfix([Num(2), Op("+"), Num(3), Op("*"), Num(4), Op("-"), Num(5), EndOfLine])
         == Ok([Num(2), Num(3), Num(4), Op("*"), Op("+"), Num(5), Op("-")])
  {
    var ts := [Num(2), Op("+"), Num(3), Op("*"), Num(4), Op("-"), Num(5), EndOfLine];
    RegroupPostfixHead(ts);
    RegroupPostfixTail(ts);
  }

  /** The yard after `2+3*4`. */
  lemma RegroupPostfixHead(ts: seq<Token>)
    requires ts == [Num(2), Op("+"), Num(3), Op("*"), Num(4), Op("-"), Num(5), EndOfLine]
    ensures YardFrom(ts, 0, Yard([], [])) == YardFrom(ts, 5, Yard([Num(2), Num(3), Num(4)], [Op("+"), Op("*")]))
  {
    RegroupPostfixStart(ts);
    RegroupPostfixMiddle(ts);
  }

  /** The yard after `2+3`. */
  lemma RegroupPostfixStart(ts: seq<Token>)
    requires ts == [Num(2), Op("+"), Num(3), Op("*"), Num(4), Op("-"), Num(5), EndOfLine]
    ensures YardFrom(ts, 0, Yard([], [])) == YardFrom(ts, 3, Yard([Num(2), Num(3)], [Op("+")]))
  {
    var y1 := Yard([] + [Num(2)], []);
    var y2 := Yard(y1.output, [] + [Op("+")]);
    var y3 := Yard(y2.output + [Num(3)], y2.operators);
    YardFromUnfold(ts, 0, Yard([], []), y1);
    YardFromUnfold(ts, 1, y1, y2);
    YardFromUnfold(ts, 2, y2, y3);
    assert y3 == Yard([Num(2), Num(3)], [Op("+")]);
  }

  /** `*` binds tighter than the stacked `+`, so it is stacked above it. */
  lemma RegroupPostfixMiddle(ts: seq<Token>)
    requires ts == [Num(2), Op("+"), Num(3), Op("*"), Num(4), Op("-"), Num(5), EndOfLine]
    ensures YardFrom(ts, 3, Yard([Num(2), Num(3)], [Op("+")]))
         == YardFrom(ts, 5, Yard([Num(2), Num(3), Num(4)], [Op("+"), Op("*")]))
  {
    var y3 := Yard([Num(2), Num(3)], [Op("+")]);
    var y4 := Yard(y3.output, y3.operators + [Op("*")]);
    var y5 := Yard(y4.output + [Num(4)], y4.operators);
    YardFromUnfold(ts, 3, y3, y4);
    YardFromUnfold(ts, 4, y4, y5);
    assert y5 == Yard([Num(2), Num(3), Num(4)], [Op("+"), Op("*")]);
  }

  /** `-` pops both stacked operators, then `5` and the end follow. */
  lemma RegroupPostfixTail(ts: seq<Token>)
    requires ts == [Num(2), Op("+"), Num(3), Op("*"), Num(4), Op("-"), Num(5), EndOfLine]
    ensures YardFrom(ts, 5, Yard([Num(2), Num(3), Num(4)], [Op("+"), Op("*")]))
         == Ok([Num(2), Num(3), Num(4), Op("*"), Op("+"), Num(5), Op("-")])
  {
    var y5 := Yard([Num(2), Num(3), Num(4)], [Op("+"), Op("*")]);
    var popped := Yard(y5.output + [Op("*")] + [Op("+")], []);
    var y6 := Yard(popped.output, [] + [Op("-")]);
    var y7 := Yard(y6.output + [Num(5)], y6.operators);
    assert y5.operators[..1] == [Op("+")];
    assert PopHigher(y5, 5) == Ok(popped);
    YardFromUnfold(ts, 5, y5, y6);
    YardFromUnfold(ts, 6, y6, y7);
    YardFromUnfold(ts, 7, y7, y7);
    assert YardFrom(ts, 8, y7) == Ok(y7.output + Reversed(y7.operators));
    assert y7.output + Reversed(y7.operators) == [Num(2), Num(3), Num(4), Op("*"), Op("+"), Num(5), Op("-")];
  }

  lemma RegroupReduce()
    ensures Reduce([Num(2), Num(3), Num(4), Op("*"), Op("+"), Num(5), Op("-")])
         == Ok(ExpBin(ExpInt(2), Minus, ExpBin(ExpBin(ExpInt(3), Mult, ExpInt(4)), Plus, ExpInt(5))))
  {
    var p := [Num(2), Num(3), Num(4), Op("*"), Op("+"), Num(5), Op("-")];
    RegroupReduceHead(p);
    assert p[..3] == [Num(2), Num(3), Num(4)];
    RegroupReduceTail([Num(2), Num(3), Num(4)]);
  }

  /** Popping `-`, `5`, `+` and `*` stacks three operators and one
      operand. */
  lemma RegroupReduceHead(p: seq<Token>)
    requires p == [Num(2), Num(3), Num(4), Op("*"), Op("+"), Num(5), Op("-")]
    ensures ReduceFrom(p, Reduction([], [], false))
         == ReduceFrom(p[..3], Reduction([ExpInt(5)], [Op("-"), Op("+"), Op("*")], false))
  {
    var s1 := Reduction([], [] + [Op("-")], false);
    var s2 := Reduction([] + [ExpInt(5)], s1.ops, true);
    var s3 := Reduction(s2.exprs, s2.ops + [Op("+")], false);
    var s4 := Reduction(s2.exprs, s3.ops + [Op("*")], false);
    assert p[..6] == [Num(2), Num(3), Num(4), Op("*"), Op("+"), Num(5)];
    assert p[..5] == [Num(2), Num(3), Num(4), Op("*"), Op("+")];
    assert p[..4] == [Num(2), Num(3), Num(4), Op("*")];
    assert p[..6][..5] == p[..5] && p[..5][..4] == p[..4] && p[..4][..3] == p[..3];
    ReduceFromUnfold(p, Reduction([], [], false), s1);
    ReduceFromUnfold(p[..6], s1, s2);
    ReduceFromUnfold(p[..5], s2, s3);
    ReduceFromUnfold(p[..4], s3, s4);
    assert s4 == Reduction([ExpInt(5)], [Op("-"), Op("+"), Op("*")], false);
  }

  /** `4` starts an operand; `3` folds `4` and `5` into it; `2` takes
      the rest with `-`. */
  lemma RegroupReduceTail(q: seq<Token>)
    requires q == [Num(2), Num(3), Num(4)]
    ensures ReduceFrom(q, Reduction([ExpInt(5)], [Op("-"), Op("+"), Op("*")], false))
         == Ok(ExpBin(ExpInt(2), Minus, ExpBin(ExpBin(ExpInt(3), Mult, ExpInt(4)), Plus, ExpInt(5))))
  {
    var e34 := ExpBin(ExpInt(3), Mult, ExpInt(4));
    var e345 := ExpBin(e34, Plus, ExpInt(5));
    var s4 := Reduction([ExpInt(5)], [Op("-"), Op("+"), Op("*")], false);
    var s5 := Reduction(s4.exprs + [ExpInt(4)], s4.ops, true);
    var s6 := Reduction([e345], [Op("-")], true);
    var s7 := Reduction([ExpBin(ExpInt(2), Minus, e345)], [], true);
    assert q[..2] == [Num(2), Num(3)];
    assert q[..2][..1] == q[..1] && q[..1][..0] == [];
    ReduceFromUnfold(q, s4, s5);
    assert s4.ops[..2] == [Op("-"), Op("+")] && s4.ops[..2][..1] == [Op("-")];
    assert s5.exprs[..1] == [ExpInt(5)];
    assert Collapse([ExpInt(5)], [Op("-"), Op("+")], e34) == Ok(Applied([Op("-")], e345));
    assert Collapse(s5.exprs, s4.ops, ExpInt(3)) == Collapse([ExpInt(5)], [Op("-"), Op("+")], e34);
    ReduceFromUnfold(q[..2], s5, s6);
    assert Collapse([e345], [Op("-")], ExpInt(2)) == Ok(Applied([], ExpBin(ExpInt(2), Minus, e345)));
    ReduceFromUnfold(q[..1], s6, s7);
    assert ReduceFrom([], s7) == Ok(ExpBin(ExpInt(2), Minus, e345));
  }

  /** The reduction folds the whole expression stack into the operand it
      reads, so an operator of lower priority that follows a product
      takes the sum beside it as its right operand: `2+3*4-5` becomes
      `2-((3*4)+5)`, not `(2+(3*4))-5`. */
  lemma MixedPrioritiesRegroup()
    ensures ExpressionOf([Num(2), Op("+"), Num(3), Op("*"), Num(4), Op("-"), Num(5), EndOfLine])
         == Ok(ExpBin(ExpInt(2), Minus, ExpBin(ExpBin(ExpInt(3), Mult, ExpInt(4)), Plus, ExpInt(5))))
  {
    RegroupPostfix();
    RegroupReduce();
  }

  lemma UnaryPostfix()
    ensures Postfix([Op("-"), Num(1), Op("+"), Num(2), EndOfLine])
         == Ok([Num(1), Operator("-", true), Num(2), Op("+")])
  {
    var ts := [Op("-"), Num(1), Op("+"), Num(2), EndOfLine];
    UnaryPostfixHead(ts);
    UnaryPostfixTail(ts);
  }

  /** The leading `-` is stacked as unary, then `1` is output. */
  lemma UnaryPostfixHead(ts: seq<Token>)
    requires ts == [Op("-"), Num(1), Op("+"), Num(2), EndOfLine]
    ensures YardFrom(ts, 0, Yard([], [])) == YardFrom(ts, 2, Yard([Num(1)], [Operator("-", true)]))
  {
    var y1 := Yard([], [] + [Operator("-", true)]);
    var y2 := Yard([] + [Num(1)], y1.operators);
    assert IsUnaryPosition(ts, 0) && GetUnop("-") == Ok(UMinus);
    assert YardStep(ts, 0, Yard([], [])) == Ok(y1);
    YardFromUnfold(ts, 0, Yard([], []), y1);
    YardFromUnfold(ts, 1, y1, y2);
    assert y2 == Yard([Num(1)], [Operator("-", true)]);
  }

  /** `+` pops the unary `-` (read as binary `-` of equal priority). */
  lemma UnaryPostfixTail(ts: seq<Token>)
    requires ts == [Op("-"), Num(1), Op("+"), Num(2), EndOfLine]
    ensures YardFrom(ts, 2, Yard([Num(1)], [Operator("-", true)]))
         == Ok([Num(1), Operator("-", true), Num(2), Op("+")])
  {
    var y2 := Yard([Num(1)], [Operator("-", true)]);
    var popped := Yard(y2.output + [Operator("-", true)], []);
    var y3 := Yard(popped.output, [] + [Op("+")]);
    var y4 := Yard(y3.output + [Num(2)], y3.operators);
    assert PopHigher(popped, 5) == Ok(popped);
    assert PopHigher(y2, 5) == Ok(popped);
    assert !IsUnaryPosition(ts, 2) && GetBinop("+") == Ok(Plus);
    assert YardStep(ts, 2, y2) == Ok(y3);
    YardFromUnfold(ts, 2, y2, y3);
    YardFromUnfold(ts, 3, y3, y4);
    YardFromUnfold(ts, 4, y4, y4);
    assert YardFrom(ts, 5, y4) == Ok(y4.output + Reversed(y4.operators));
    assert y4.output + Reversed(y4.operators) == [Num(1), Operator("-", true), Num(2), Op("+")];
  }

  lemma UnaryReduce()
    ensures Reduce([Num(1), Operator("-", true), Num(2), Op("+")])
         == Ok(ExpBin(ExpUnr(UMinus, ExpInt(1)), Plus, ExpInt(2)))
  {
    var p := [Num(1), Operator("-", true), Num(2), Op("+")];
    var m1 := ExpUnr(UMinus, ExpInt(1));
    var s1 := Reduction([], [] + [Op("+")], false);
    var s2 := Reduction([] + [ExpInt(2)], s1.ops, true);
    var s3 := Reduction(s2.exprs, s2.ops + [Operator("-", true)], true);
    var s4 := Reduction([ExpBin(m1, Plus, ExpInt(2))], [], true);
    assert p[..3] == [Num(1), Operator("-", true), Num(2)];
    assert p[..2] == [Num(1), Operator("-", true)];
    assert p[..3][..2] == p[..2] && p[..2][..1] == p[..1] && p[..1][..0] == [];
    ReduceFromUnfold(p, Reduction([], [], false), s1);
    ReduceFromUnfold(p[..3], s1, s2);
    ReduceFromUnfold(p[..2], s2, s3);
    assert s3.ops[..1] == [Op("+")];
    assert Unaries(s3.ops, ExpInt(1)) == Ok(Applied([Op("+")], m1));
    assert Collapse(s3.exprs, [Op("+")], m1) == Ok(Applied([], ExpBin(m1, Plus, ExpInt(2))));
    ReduceFromUnfold(p[..1], s3, s4);
    assert ReduceFrom([], s4) == Ok(ExpBin(m1, Plus, ExpInt(2)));
  }

  /** A leading `-` is unary and applies to the operand right after it:
      `-1+2` is `(-1)+2`. */
  lemma LeadingMinusIsUnary()
    ensures ExpressionOf([Op("-"), Num(1), Op("+"), Num(2), EndOfLine])
         == Ok(ExpBin(ExpUnr(UMinus, ExpInt(1)), Plus, ExpInt(2)))
  {
    UnaryPostfix();
    UnaryReduce();
  }

  // ---------------------------------------------------------------------
  // Properties of command parsing
  // ---------------------------------------------------------------------

  /** Every command result in the tree, at any depth, carries `original`. */
  predicate CarriesOriginal(c: CommandResult, original: string)
    decreases c
  {
    c.original == original && (c.command.Ok? ==> CommandCarries(c.command.value, original))
  }

  predicate CommandCarries(c: Command, original: string)
    decreases c
  {
    match c
    case If(_, consequent) => CarriesOriginal(consequent, original)
    case Multiple(cs) => forall i :: 0 <= i < |cs| ==> CarriesOriginal(cs[i], original)
    case StoreCommand(_, inner) => CommandCarries(inner, original)
    case OnErr(inner) => CommandCarries(inner, original)
    case _ => true
  }

  /** Every part of a parsed line, down to the branches of `IF` and the
      statements of a `:` list, keeps the text of the whole line. */
  lemma {:induction false} PartsCarryOriginal(tr: TokenResult)
    requires ThenFollowsEveryIf(tr.tokens)
    ensures CarriesOriginal(ParseToCommand(tr), tr.original)
    decreases |tr.tokens|, 2
  {
    var tokens := tr.tokens;
    var semi := IndexWhere(tokens, IsColon);
    if semi >= 0 {
      var left := TokenResult(tr.original, tokens[..semi]);
      var right := TokenResult(tr.original, tokens[semi + 1..]);
      MultipleCommandShape(tr, left, right);
      PartsCarryOriginal(left);
      PartsCarryOriginal(right);
      MultipleCarries(ParseToCommand(left), ParseToCommand(right), tr.original);
    } else if tokens != [] {
      if tokens[0].Keyword? {
        assert ParseToCommand(tr) == ParseKeywordCommand(tr);
        KeywordPartsCarryOriginal(tr);
      } else if tokens[0].NumberLiteral? {
        var rest := TokenResult(tr.original, tokens[1..]);
        StoreCommandShape(tr, rest);
        PartsCarryOriginal(rest);
      }
    }
  }

  /** A line with a `:` is the `Multiple` of the parts on either side. */
  lemma MultipleCommandShape(tr: TokenResult, left: TokenResult, right: TokenResult)
    requires ThenFollowsEveryIf(tr.tokens) && IndexWhere(tr.tokens, IsColon) >= 0
    requires left == TokenResult(tr.original, tr.tokens[..IndexWhere(tr.tokens, IsColon)])
    requires right == TokenResult(tr.original, tr.tokens[IndexWhere(tr.tokens, IsColon) + 1..])
    ensures ThenFollowsEveryIf(left.tokens) && ThenFollowsEveryIf(right.tokens)
    ensures ParseToCommand(tr) == CommandResult(tr.original, Ok(Multiple([ParseToCommand(left), ParseToCommand(right)])))
  {
  }

  lemma MultipleCarries(a: CommandResult, b: CommandResult, original: string)
    requires CarriesOriginal(a, original) && CarriesOriginal(b, original)
    ensures CarriesOriginal(CommandResult(original, Ok(Multiple([a, b]))), original)
  {
    var cs := [a, b];
    assert forall i :: 0 <= i < |cs| ==> cs[i] == a || cs[i] == b;
  }

  /** A line that starts with a number stores the command after it. */
  lemma StoreCommandShape(tr: TokenResult, rest: TokenResult)
    requires ThenFollowsEveryIf(tr.tokens) && IndexWhere(tr.tokens, IsColon) == -1
    requires tr.tokens != [] && tr.tokens[0].NumberLiteral?
    requires rest == TokenResult(tr.original, tr.tokens[1..])
    ensures ThenFollowsEveryIf(rest.tokens)
    ensures var c := ParseToCommand(tr).command;
      var inner := ParseToCommand(rest).command;
      && (inner.Ok? ==> c == Ok(StoreCommand(tr.tokens[0].number, inner.value)))
      && (inner.Err? ==> c == inner)
  {
    var command := ParseToCommand(rest);
    assert ParseToCommand(tr) == if command.command.Ok?
      then CommandResult(tr.original, Ok(StoreCommand(tr.tokens[0].number, command.command.value)))
      else CommandResult(tr.original, command.command);
  }

  lemma {:induction false} KeywordPartsCarryOriginal(tr: TokenResult)
    requires tr.tokens != [] && tr.tokens[0].Keyword? && IndexWhere(tr.tokens, IsColon) == -1
    requires ThenFollowsEveryIf(tr.tokens)
    ensures CarriesOriginal(ParseKeywordCommand(tr), tr.original)
    decreases |tr.tokens|, 1
  {
    var w := tr.tokens[0].value;
    if w == "IF" {
      IfPartsCarryOriginal(tr);
    } else if w == "ONERR" {
      var rest := TokenResult(tr.original, tr.tokens[1..]);
      OnErrCommandShape(tr, rest);
      PartsCarryOriginal(rest);
    } else {
      FlatKeywordCommand(tr);
    }
  }

  lemma {:induction false} IfPartsCarryOriginal(tr: TokenResult)
    requires tr.tokens != [] && tr.tokens[0].Keyword? && IndexWhere(tr.tokens, IsColon) == -1
    requires ThenFollowsEveryIf(tr.tokens) && tr.tokens[0].value == "IF"
    ensures CarriesOriginal(ParseKeywordCommand(tr), tr.original)
    decreases |tr.tokens|, 0
  {
    IfKeywordBranch(tr);
    IfConsequentFollows(tr);
    var thenIndex := IndexWhere(tr.tokens, IsThen);
    var thenTr := TokenResult(tr.original, tr.tokens[thenIndex + 1..]);
    IfBranchUnfold(tr, ExpressionOf(tr.tokens[1..thenIndex]), ParseToCommand(thenTr));
    PartsCarryOriginal(thenTr);
  }

  /** `IF` parses exactly when both the condition between `IF` and `THEN`
      and the command after `THEN` parse; it then holds both, and otherwise
      the error names the original line. */
  lemma IfCommandShape(tr: TokenResult, thenTr: TokenResult)
    requires tr.tokens != [] && tr.tokens[0].Keyword? && IndexWhere(tr.tokens, IsColon) == -1
    requires ThenFollowsEveryIf(tr.tokens) && tr.tokens[0].value == "IF"
    requires IndexWhere(tr.tokens, IsThen) >= 0
    requires thenTr == TokenResult(tr.original, tr.tokens[IndexWhere(tr.tokens, IsThen) + 1..])
    ensures IndexWhere(tr.tokens, IsThen) >= 1 && ThenFollowsEveryIf(thenTr.tokens)
    ensures var c := ParseKeywordCommand(tr).command;
      var cond := ExpressionOf(tr.tokens[1..IndexWhere(tr.tokens, IsThen)]);
      && (c.Ok? <==> cond.Ok? && ParseToCommand(thenTr).command.Ok?)
      && (c.Ok? ==> c.value == If(cond.value, ParseToCommand(thenTr)))
      && (c.Err? ==> c.error == "*** No valid expression ***\n\t original: " + tr.original)
  {
    IfKeywordBranch(tr);
    IfConsequentFollows(tr);
    var cond := ExpressionOf(tr.tokens[1..IndexWhere(tr.tokens, IsThen)]);
    IfBranchUnfold(tr, cond, ParseToCommand(thenTr));
  }

  /** The `IF` branch for a given condition and consequent. */
  lemma IfBranchUnfold(tr: TokenResult, cond: Result<Expression>, thenRes: CommandResult)
    requires tr.tokens != [] && tr.tokens[0].Keyword? && IndexWhere(tr.tokens, IsColon) == -1
    requires ThenFollowsEveryIf(tr.tokens) && tr.tokens[0].value == "IF"
    requires IndexWhere(tr.tokens, IsThen) >= 1
    requires ThenFollowsEveryIf(tr.tokens[IndexWhere(tr.tokens, IsThen) + 1..])
    requires cond == ExpressionOf(tr.tokens[1..IndexWhere(tr.tokens, IsThen)])
    requires thenRes == ParseToCommand(TokenResult(tr.original, tr.tokens[IndexWhere(tr.tokens, IsThen) + 1..]))
    ensures ParseIfCommand(tr)
         == if !cond.Ok? || !thenRes.command.Ok? then
              CommandResult(tr.original, Err("*** No valid expression ***\n\t original: " + tr.original))
            else CommandResult(tr.original, Ok(If(cond.value, thenRes)))
  {
  }

  /** An `IF` the parser accepts has its `THEN` after the keyword, and the
      consequent meets the same condition. */
  lemma IfConsequentFollows(tr: TokenResult)
    requires tr.tokens != [] && tr.tokens[0].Keyword? && IndexWhere(tr.tokens, IsColon) == -1
    requires ThenFollowsEveryIf(tr.tokens) && tr.tokens[0].value == "IF"
    ensures IndexWhere(tr.tokens, IsThen) >= 1
    ensures ThenFollowsEveryIf(tr.tokens[IndexWhere(tr.tokens, IsThen) + 1..])
  {
  }

  /** The keyword dispatch sends `IF` to its own branch. */
  lemma IfKeywordBranch(tr: TokenResult)
    requires tr.tokens != [] && tr.tokens[0].Keyword? && IndexWhere(tr.tokens, IsColon) == -1
    requires ThenFollowsEveryIf(tr.tokens) && tr.tokens[0].value == "IF"
    ensures ParseKeywordCommand(tr) == ParseIfCommand(tr)
  {
    var w := tr.tokens[0].value;
    assert w != "PRINT" && w != "?" && w != "REM" && w != "LET";
    assert w != "RUN" && w != "LIST" && w != "GOTO";
  }

  /** `ONERR` holds the command parsed from the rest of the line, or is
      that command's failed result itself. */
  lemma OnErrCommandShape(tr: TokenResult, rest: TokenResult)
    requires tr.tokens != [] && tr.tokens[0].Keyword? && IndexWhere(tr.tokens, IsColon) == -1
    requires ThenFollowsEveryIf(tr.tokens) && tr.tokens[0].value == "ONERR"
    requires rest == TokenResult(tr.original, tr.tokens[1..])
    ensures ThenFollowsEveryIf(rest.tokens)
    ensures var inner := ParseToCommand(rest);
      ParseKeywordCommand(tr)
      == if inner.command.Ok? then CommandResult(tr.original, Ok(OnErr(inner.command.value))) else inner
  {
    var w := tr.tokens[0].value;
    assert w[0] == 'O' && w[1] == 'N';
    assert w != "PRINT" && w != "?" && w != "REM" && w != "LET" && w != "RUN";
    assert w != "LIST" && w != "GOTO" && w != "IF";
  }

  /** A keyword other than `IF` and `ONERR` builds a command with no
      command inside it. */
  lemma FlatKeywordCommand(tr: TokenResult)
    requires tr.tokens != [] && tr.tokens[0].Keyword? && IndexWhere(tr.tokens, IsColon) == -1
    requires ThenFollowsEveryIf(tr.tokens)
    requires tr.tokens[0].value != "IF" && tr.tokens[0].value != "ONERR"
    ensures var c := ParseKeywordCommand(tr).command;
      c.Ok? ==> !c.value.If? && !c.value.OnErr? && !c.value.Multiple? && !c.value.StoreCommand?
  {
  }

  /** Only `PRINT`, `?`, `REM`, `LET`, `RUN`, `LIST`, `GOTO`, `IF` and
      `ONERR` start a command: a line beginning with any other keyword, such
      as `GOSUB`, `RETURN` or `POP`, does not parse. */
  lemma OtherKeywordsUnsupported(tr: TokenResult)
    requires tr.tokens != [] && tr.tokens[0].Keyword?
    requires tr.tokens[0].value !in {"PRINT", "?", "REM", "LET", "RUN", "LIST", "GOTO", "IF", "ONERR"}
    requires IndexWhere(tr.tokens, IsColon) == -1
    ensures ThenFollowsEveryIf(tr.tokens)
    ensures ParseToCommand(tr).command.Err?
  {
    assert ParseToCommand(tr) == ParseKeywordCommand(tr);
  }
  /** `RUN` and `GOTO` take the number that follows them as their line, and
      line 0 when nothing or something other than a number follows. */
  lemma LineArgumentDefaults(tr: TokenResult)
    requires tr.tokens != [] && tr.tokens[0].Keyword? && IndexWhere(tr.tokens, IsColon) == -1
    requires tr.tokens[0].value == "RUN" || tr.tokens[0].value == "GOTO"
    ensures ThenFollowsEveryIf(tr.tokens)
    ensures var c := ParseToCommand(tr).command;
      var n := if |tr.tokens| > 1 && tr.tokens[1].NumberLiteral? then tr.tokens[1].number else 0;
      c == Ok(if tr.tokens[0].value == "RUN" then Run(n) else GoTo(n))
  {
    assert ParseToCommand(tr) == ParseKeywordCommand(tr);
  }

  /** A postfix list holding operators but no operand reduces to the
      "No expression" error: operators only ever wait for an operand. */
  lemma {:induction false} OperatorsAloneNoExpression(tokens: seq<Token>, st: Reduction)
    requires AllOperators(tokens) && AllOperators(st.ops) && st.exprs == []
    ensures ReduceFrom(tokens, st) == Err("*** No expression ***")
    decreases |tokens|
  {
    if tokens != [] {
      var t := tokens[|tokens| - 1];
      assert t.Operator?;
      var st2 := Reduction(st.exprs, st.ops + [t], t.unary);
      assert ReduceStep(t, st) == Ok(st2);
      OperatorsAloneNoExpression(tokens[..|tokens| - 1], st2);
    }
  }
}
