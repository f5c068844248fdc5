/** The parser of `src/parser.kt`, the oldest generation: the only command
    is `PRINT` (or `?`) of a string literal or of an infix expression over
    integer literals.  The expression goes through a shunting yard whose
    leftover operators are appended to the output bottom of the stack
    first, then through a reduction that reads the postfix list from its
    end.  `java.util.Stack.pop` on an empty stack throws
    `EmptyStackException`, which nothing catches: the parse then ends in
    `Throws`. */
module LegacyParser {
  import opened Common
  import opened LegacyTokenizer
  import Ops = MainOperators

  const EmptyStack: string := "java.util.EmptyStackException"

  // ---------------------------------------------------------------------
  // Operators.  The operator datatypes and their priorities are those of
  // the later generation (the same constructors and the same numbers);
  // only the spellings `getUnop` and `getBinop` accept differ.
  // ---------------------------------------------------------------------

  /** `Token.Operator.getUnop`: `-` and `!`.  Nothing in this generation
      calls it. */
  function GetUnop(value: string): (r: Result<Ops.UnaryOp>)
    ensures r.Ok? <==> value in {"-", "!"}
    ensures r.Ok? ==> (r.value == Ops.UMinus <==> value == "-")
  {
    if value == "-" then Ok(Ops.UMinus)
    else if value == "!" then Ok(Ops.Not)
    else Err("*** '" + value + "' is not a valid unary operator ***")
  }

  /** Every spelling `getBinop` accepts: one per operator. */
  const BinopSymbols: set<string> :=
    {"+", "-", "*", "/", "MOD", "=", "<", "<=", ">", ">=", "<>", "&", "|"}

  /** The one spelling of each binary operator. */
  function Symbol(op: Ops.BinaryOp): (s: string)
    ensures s in BinopSymbols
  {
    match op
    case Plus => "+"
    case Minus => "-"
    case Mult => "*"
    case Div => "/"
    case Mod => "MOD"
    case Equal => "="
    case Less => "<"
    case LessEq => "<="
    case Great => ">"
    case GreatEq => ">="
    case Diff => "<>"
    case And => "&"
    case Or => "|"
  }

  /** `Token.Operator.getBinop`. */
  function GetBinop(value: string): (r: Result<Ops.BinaryOp>)
  {
    if value == "+" then Ok(Ops.Plus)
    else if value == "-" then Ok(Ops.Minus)
    else if value == "*" then Ok(Ops.Mult)
    else if value == "/" then Ok(Ops.Div)
    else if value == "MOD" then Ok(Ops.Mod)
    else if value == "=" then Ok(Ops.Equal)
    else if value == "<" then Ok(Ops.Less)
    else if value == "<=" then Ok(Ops.LessEq)
    else if value == ">" then Ok(Ops.Great)
    else if value == ">=" then Ok(Ops.GreatEq)
    else if value == "<>" then Ok(Ops.Diff)
    else if value == "&" then Ok(Ops.And)
    else if value == "|" then Ok(Ops.Or)
    else Err("*** '" + value + "' is not a valid binary operator ***")
  }

  /** `getBinop` accepts exactly the thirteen symbols, and names the
      rejected text in its error. */
  lemma BinopTable(value: string)
    ensures GetBinop(value).Ok? <==> value in BinopSymbols
    ensures GetBinop(value).Err? ==>
      GetBinop(value).error == "*** '" + value + "' is not a valid binary operator ***"
  {
  }

  /** The table is a bijection: a spelling gives an operator exactly when
      it is that operator's symbol. */
  lemma SymbolRoundTrip(value: string, op: Ops.BinaryOp)
    ensures GetBinop(value) == Ok(op) <==> value == Symbol(op)
  {
    if value == Symbol(op) {
      match op
      case Plus =>
      case Minus =>
      case Mult =>
      case Div =>
      case Mod =>
      case Equal =>
      case Less =>
      case LessEq =>
      case Great =>
      case GreatEq =>
      case Diff =>
      case And =>
      case Or =>
    }
  }

  /** Every spelling this table accepts means the same operator in the
      later generation's table, which only adds synonyms (`=<`, `=>`, `><`,
      `AND`, `OR`). */
  lemma LaterTableExtends(value: string)
    ensures GetBinop(value).Ok? ==> Ops.GetBinop(value) == GetBinop(value)
    ensures Ops.BinopSymbols - BinopSymbols == {"=<", "=>", "><", "AND", "OR"}
  {
  }

  // ---------------------------------------------------------------------
  // Expressions and commands
  // ---------------------------------------------------------------------

  datatype Expression =
    | ExpInt(value: int)
    | ExpStr(text: string)
    | ExpUnr(uop: Ops.UnaryOp, expression: Expression)
    | ExpBin(left: Expression, op: Ops.BinaryOp, right: Expression)

  datatype Command = Print(expression: Expression)

  /** Kotlin's `toString` of a token in an error message.  The two `object`
      tokens print as their class name followed by a hash code; the hash
      code is left out. */
  function TokenText(t: Token): string
  {
    match t
    case Identifier(v) => "Identifier(value=" + v + ")"
    case StringLiteral(v) => "StringLiteral(value=" + v + ")"
    case NumberLiteral(n) => "NumberLiteral(value=" + IntToString(n) + ")"
    case Keyword(v) => "Keyword(value=" + v + ")"
    case Operator(v) => "Operator(value=" + v + ")"
    case EndOfLine => "Token$EndOfLine"
    case Illegal => "Token$Illegal"
  }

  // ---------------------------------------------------------------------
  // `java.util.Stack`
  // ---------------------------------------------------------------------

  /** A `java.util.Stack`, the top at the end of `items`. */
  class Stack<T> {
    var items: seq<T>

    constructor ()
      ensures items == []
    {
      items := [];
    }

    method Push(item: T)
      modifies this
      ensures items == old(items) + [item]
    {
      items := items + [item];
    }

    /** `peek()`: the top, or `EmptyStackException`. */
    function Peek(): (r: Outcome<T>)
      reads this
      ensures r.Returns? <==> items != []
      ensures r.Returns? ==> r.value == items[|items| - 1]
      ensures !r.Returns? ==> r == Throws(EmptyStack)
    {
      if items == [] then Throws(EmptyStack) else Returns(items[|items| - 1])
    }

    /** `pop()`: removes and returns the top; on an empty stack throws
        `EmptyStackException` and changes nothing. */
    method Pop() returns (r: Outcome<T>)
      modifies this
      ensures old(items) == [] ==> r == Throws(EmptyStack) && items == []
      ensures old(items) != [] ==> r == Returns(old(items)[|old(items)| - 1])
      ensures old(items) != [] ==> items == old(items)[..|old(items)| - 1]
    {
      if items == [] {
        r := Throws(EmptyStack);
      } else {
        r := Returns(items[|items| - 1]);
        items := items[..|items| - 1];
      }
    }
  }

  // ---------------------------------------------------------------------
  // Token classes of the expression parser
  // ---------------------------------------------------------------------

  /** The element type of both operator stacks, `Stack<Token.Operator>`. */
  type OperatorToken = t: Token | t.Operator? witness Operator("+")

  predicate IsBinaryOperator(t: Token) { t.Operator? && GetBinop(t.value).Ok? }

  predicate AllBinary(ops: seq<Token>) { forall k :: 0 <= k < |ops| ==> IsBinaryOperator(ops[k]) }

  /** Every operator in the list is a binary operator. */
  predicate OperatorsBinary(ts: seq<Token>)
  {
    forall k :: 0 <= k < |ts| && ts[k].Operator? ==> GetBinop(ts[k].value).Ok?
  }

  /** The tokens the shunting yard accepts. */
  predicate Shuntable(t: Token) { t.NumberLiteral? || t.EndOfLine? || IsBinaryOperator(t) }

  /** The error the shunting yard reports on a token it does not accept. */
  function ShuntError(t: Token): string
    requires !Shuntable(t)
  {
    if t.Operator? then "*** Something went wrong 1:\n\t" + GetBinop(t.value).error
    else "*** Shunting yard can not handle: " + TokenText(t)
  }

  /** The operand leaves the number literals of a list become, in order. */
  function Operands(ts: seq<Token>): (leaves: seq<Expression>)
    ensures |leaves| <= |ts|
  {
    if ts == [] then []
    else (if ts[0].NumberLiteral? then [ExpInt(ts[0].number)] else []) + Operands(ts[1..])
  }

  /** The leaves of an expression tree from left to right. */
  function Leaves(e: Expression): (leaves: seq<Expression>)
    ensures |leaves| > 0
  {
    match e
    case ExpUnr(_, x) => Leaves(x)
    case ExpBin(l, _, r) => Leaves(l) + Leaves(r)
    case _ => [e]
  }

  // ---------------------------------------------------------------------
  // Shunting yard, as functions
  // ---------------------------------------------------------------------

  /** The output stack and the operator stack of `parseShuntingYard`. */
  datatype Yard = Yard(output: seq<Token>, operators: seq<OperatorToken>)

  /** A stacked operator that leaves the stack before an incoming operator
      of priority `priority`: its own priority is at least as high. */
  predicate Outranks(t: OperatorToken, priority: int)
  {
    GetBinop(t.value).Ok? && priority <= Ops.PriorityBinop(GetBinop(t.value).value)
  }

  /** Before an operator of priority `priority` is pushed: move the stacked
      operators to the output, top first, while they outrank it. */
  function PopHigher(y: Yard, priority: int): (r: Result<Yard>)
    ensures AllBinary(y.operators) ==> r.Ok?
    ensures r.Ok? ==> r.value.operators <= y.operators
    ensures r.Ok? && r.value.operators != [] ==>
      var top := r.value.operators[|r.value.operators| - 1];
      IsBinaryOperator(top) && !Outranks(top, priority)
    decreases |y.operators|
  {
    if y.operators == [] then Ok(y)
    else
      var top := y.operators[|y.operators| - 1];
      match GetBinop(top.value)
      case Err(e) => Err("*** Something went wrong 2:\n\t" + e)
      case Ok(op) =>
        if priority <= Ops.PriorityBinop(op)
        then PopHigher(Yard(y.output + [top], y.operators[..|y.operators| - 1]), priority)
        else Ok(y)
  }

  /** The body of the yard's loop for one token. */
  function YardStep(token: Token, y: Yard): (r: Result<Yard>)
    ensures AllBinary(y.operators) ==> (r.Ok? <==> Shuntable(token))
    ensures AllBinary(y.operators) && r.Ok? ==> AllBinary(r.value.operators)
    ensures AllBinary(y.operators) && r.Err? ==> r.error == ShuntError(token)
  {
    match token
    case NumberLiteral(_) => Ok(Yard(y.output + [token], y.operators))
    case Operator(v) =>
      (match GetBinop(v)
       case Err(e) => Err("*** Something went wrong 1:\n\t" + e)
       case Ok(op) =>
         (match PopHigher(y, Ops.PriorityBinop(op))
          case Err(e) => Err(e)
          case Ok(y2) => Ok(Yard(y2.output, y2.operators + [token]))))
    case EndOfLine => Ok(y)
    case _ => Err("*** Shunting yard can not handle: " + TokenText(token))
  }

  /** The yard run from `index` to the end, then the stacked operators
      appended to the output in the stack's own order, bottom first
      (`operators.forEach { output.push(it) }`). */
  function YardFrom(tokens: seq<Token>, index: nat, y: Yard): (r: Result<seq<Token>>)
    requires index <= |tokens|
    decreases |tokens| - index
  {
    if index == |tokens| then Ok(y.output + y.operators)
    else match YardStep(tokens[index], y)
      case Err(e) => Err(e)
      case Ok(y2) => YardFrom(tokens, index + 1, y2)
  }

  /** The postfix list `parseShuntingYard` hands to the reduction. */
  function Postfix(tokens: seq<Token>): Result<seq<Token>>
  {
    YardFrom(tokens, 0, Yard([], []))
  }

  // ---------------------------------------------------------------------
  // Reduction of the postfix list, as functions
  // ---------------------------------------------------------------------

  /** The expression stack, the operator stack and `pendingOperand`. */
  datatype Reduction = Reduction(exprs: seq<Expression>, ops: seq<OperatorToken>, pending: bool)

  /** The operator stack left after a collapse, and the expression built. */
  datatype Applied = Applied(ops: seq<OperatorToken>, expression: Expression)

  /** A parse that returned `Ok`. */
  predicate Parsed<T>(r: Outcome<Result<T>>) { r.Returns? && r.value.Ok? }

  /** A parse that returned `Err`. */
  predicate Rejected<T>(r: Outcome<Result<T>>) { r.Returns? && r.value.Err? }

  /** Fold the whole expression stack into `e`: each step pops the top
      expression, then an operator, and makes `ExpBin(e, op, top)`.  One
      operator is consumed per expression; too few operators throw. */
  function Collapse(exprs: seq<Expression>, ops: seq<OperatorToken>, e: Expression): (r: Outcome<Result<Applied>>)
    ensures !r.OutOfFuel?
    ensures AllBinary(ops) ==> !Rejected(r) && (r.Throws? <==> |ops| < |exprs|)
    ensures r.Throws? ==> r == Throws(EmptyStack)
    ensures Parsed(r) ==> |exprs| <= |ops| && r.value.value.ops == ops[..|ops| - |exprs|]
    decreases |exprs|
  {
    if exprs == [] then Returns(Ok(Applied(ops, e)))
    else if ops == [] then Throws(EmptyStack)
    else match GetBinop(ops[|ops| - 1].value)
      case Err(err) => Returns(Err("*** Something went wrong 3:\n\t" + err))
      case Ok(op) => Collapse(exprs[..|exprs| - 1], ops[..|ops| - 1], ExpBin(e, op, exprs[|exprs| - 1]))
  }

  /** One step of `Collapse` when both stacks have a top. */
  lemma CollapseUnfold(exprs: seq<Expression>, ops: seq<OperatorToken>, e: Expression)
    requires exprs != [] && ops != [] && GetBinop(ops[|ops| - 1].value).Ok?
    ensures Collapse(exprs, ops, e)
         == Collapse(exprs[..|exprs| - 1], ops[..|ops| - 1],
                     ExpBin(e, GetBinop(ops[|ops| - 1].value).value, exprs[|exprs| - 1]))
  {
  }

  /** The body of the reduction's loop for one popped token. */
  function ReduceStep(token: Token, st: Reduction): (r: Outcome<Result<Reduction>>)
    ensures !r.OutOfFuel?
    ensures r.Throws? ==> r == Throws(EmptyStack)
    ensures AllBinary(st.ops) && OperatorsBinary([token]) ==>
      !Rejected(r) && (Parsed(r) ==> AllBinary(r.value.value.ops))
  {
    if token.Operator? then Returns(Ok(Reduction(st.exprs, st.ops + [token], false)))
    else if token.NumberLiteral? then
      var leaf := ExpInt(token.number);
      if !st.pending then Returns(Ok(Reduction(st.exprs + [leaf], st.ops, true)))
      else
        match Collapse(st.exprs, st.ops, leaf)
        case Returns(res) =>
          (match res
           case Err(err) => Returns(Err(err))
           case Ok(c) => Returns(Ok(Reduction([c.expression], c.ops, true))))
        case Throws(x) => Throws(x)
        case OutOfFuel => OutOfFuel
    else Returns(Ok(st))
  }

  /** `parseReversePolishNotation` on the tokens still to be popped; the
      final `expressionStack.pop()` throws when the stack is empty. */
  function ReduceFrom(tokens: seq<Token>, st: Reduction): (r: Outcome<Result<Expression>>)
    ensures !r.OutOfFuel?
    ensures r.Throws? ==> r == Throws(EmptyStack)
    ensures AllBinary(st.ops) && OperatorsBinary(tokens) ==> !Rejected(r)
    decreases |tokens|
  {
    if tokens == [] then
      if st.exprs == [] then Throws(EmptyStack) else Returns(Ok(st.exprs[|st.exprs| - 1]))
    else
      var t := tokens[|tokens| - 1];
      assert OperatorsBinary(tokens) ==> OperatorsBinary([t]) && OperatorsBinary(tokens[..|tokens| - 1]);
      match ReduceStep(t, st)
      case Returns(res) =>
        (match res
         case Err(err) => Returns(Err(err))
         case Ok(st2) => ReduceFrom(tokens[..|tokens| - 1], st2))
      case Throws(x) => Throws(x)
      case OutOfFuel => OutOfFuel
  }

  function Reduce(postfix: seq<Token>): Outcome<Result<Expression>>
  {
    ReduceFrom(postfix, Reduction([], [], false))
  }

  /** What `parseShuntingYard` returns (or throws). */
  function ShuntingYard(tokens: seq<Token>): Outcome<Result<Expression>>
  {
    match Postfix(tokens)
    case Err(e) => Returns(Err(e))
    case Ok(postfix) => Reduce(postfix)
  }

  // ---------------------------------------------------------------------
  // Commands
  // ---------------------------------------------------------------------

  /** `parseToExpression`: a string literal is the whole expression (the
      rest of the line is ignored); a number starts an infix expression. */
  function ParseToExpression(tokens: seq<Token>): (r: Outcome<Result<Expression>>)
  {
    if tokens == [] then Returns(Err("*** No valid expression ***"))
    else
      var first := tokens[0];
      if first.StringLiteral? then Returns(Ok(ExpStr(first.value)))
      else if first.NumberLiteral? then ShuntingYard(tokens)
      else Returns(Err("*** Unsupported expression: " + TokenText(first)))
  }

  /** `parseToPrintCommand`. */
  function ParseToPrintCommand(tokens: seq<Token>): (r: Outcome<Result<Command>>)
  {
    match ParseToExpression(tokens)
    case Returns(res) =>
      (match res
       case Ok(e) => Returns(Ok(Print(e)))
       case Err(err) => Returns(Err("*** Print error: ***\n\t" + err)))
    case Throws(x) => Throws(x)
    case OutOfFuel => OutOfFuel
  }

  /** `parseToCommand`. */
  function ParseToCommand(tokens: seq<Token>): (r: Outcome<Result<Command>>)
  {
    if tokens == [] then Returns(Err("*** No valid expression ***"))
    else
      var head := tokens[0];
      if head.Keyword? then
        if head.value == "PRINT" || head.value == "?" then ParseToPrintCommand(tokens[1..])
        else Returns(Err("*** Unsupported command: " + TokenText(head)))
      else Returns(Err("*** Not a keyword: " + TokenText(head)))
  }

  // ---------------------------------------------------------------------
  // The two algorithms over `java.util.Stack`
  // ---------------------------------------------------------------------

  /** The popping loop run before an operator is pushed. */
  method PopHigherOperators(output: Stack<Token>, operators: Stack<OperatorToken>, priority: int) returns (r: Result<Yard>)
    requires output as object != operators
    modifies output, operators
    ensures r == PopHigher(old(Yard(output.items, operators.items)), priority)
    ensures r.Ok? ==> Yard(output.items, operators.items) == r.value
  {
    ghost var y := Yard(output.items, operators.items);
    while operators.items != []
      invariant PopHigher(Yard(output.items, operators.items), priority) == PopHigher(y, priority)
      decreases |operators.items|
    {
      var opStackResult := GetBinop(operators.Peek().value.value);
      if opStackResult.Err? {
        return Err("*** Something went wrong 2:\n\t" + opStackResult.error);
      }
      if priority <= Ops.PriorityBinop(opStackResult.value) {
        var top := operators.Pop();
        output.Push(top.value);
      } else {
        break;
      }
    }
    r := Ok(Yard(output.items, operators.items));
  }

  /** One iteration of the yard's `for` loop. */
  method ShuntToken(token: Token, output: Stack<Token>, operators: Stack<OperatorToken>) returns (r: Result<Yard>)
    requires output as object != operators
    modifies output, operators
    ensures r == YardStep(token, old(Yard(output.items, operators.items)))
    ensures r.Ok? ==> Yard(output.items, operators.items) == r.value
  {
    match token {
      case NumberLiteral(_) =>
        output.Push(token);
      case Operator(v) =>
        var tokOpRes := GetBinop(v);
        if tokOpRes.Err? {
          return Err("*** Something went wrong 1:\n\t" + tokOpRes.error);
        }
        r := PopHigherOperators(output, operators, Ops.PriorityBinop(tokOpRes.value));
        if r.Err? {
          return;
        }
        operators.Push(token);
      case EndOfLine =>
      case Identifier(_) =>
        return Err("*** Shunting yard can not handle: " + TokenText(token));
      case StringLiteral(_) =>
        return Err("*** Shunting yard can not handle: " + TokenText(token));
      case Keyword(_) =>
        return Err("*** Shunting yard can not handle: " + TokenText(token));
      case Illegal =>
        return Err("*** Shunting yard can not handle: " + TokenText(token));
    }
    r := Ok(Yard(output.items, operators.items));
  }

  method ParseShuntingYard(tokens: seq<Token>) returns (r: Outcome<Result<Expression>>)
    ensures r == ShuntingYard(tokens)
  {
    var output := new Stack<Token>();
    var operators := new Stack<OperatorToken>();
    var index := 0;
    while index < |tokens|
      invariant 0 <= index <= |tokens|
      invariant fresh(output) && fresh(operators)
      invariant YardFrom(tokens, index, Yard(output.items, operators.items)) == Postfix(tokens)
    {
      var step := ShuntToken(tokens[index], output, operators);
      if step.Err? {
        assert ShuntingYard(tokens) == Returns(Err(step.error));
        return Returns(Err(step.error));
      }
      index := index + 1;
    }
    assert Postfix(tokens) == Ok(output.items + operators.items);
    ghost var stacked, leftover := output.items, operators.items;
    var i := 0;
    while i < |operators.items|
      invariant operators.items == leftover && 0 <= i <= |leftover|
      invariant output.items == stacked + leftover[..i]
    {
      output.Push(operators.items[i]);
      assert operators.items[..i + 1] == operators.items[..i] + [operators.items[i]];
      i := i + 1;
    }
    assert operators.items[..i] == operators.items;
    assert ShuntingYard(tokens) == Reduce(output.items);
    r := ParseReversePolishNotation(output);
  }

  /** The inner loop of the reduction: the expression stack is folded into
      the new operand, one stacked operator per expression. */
  method CollapseStack(expressionStack: Stack<Expression>, operatorStack: Stack<OperatorToken>, e: Expression) returns (r: Outcome<Result<Applied>>)
    requires expressionStack as object != operatorStack
    modifies expressionStack, operatorStack
    ensures r == Collapse(old(expressionStack.items), old(operatorStack.items), e)
    ensures Parsed(r) ==> operatorStack.items == r.value.value.ops && expressionStack.items == []
  {
    var expression := e;
    while expressionStack.items != []
      invariant Collapse(expressionStack.items, operatorStack.items, expression)
             == Collapse(old(expressionStack.items), old(operatorStack.items), e)
      decreases |expressionStack.items|
    {
      ghost var exprs, ops := expressionStack.items, operatorStack.items;
      var operand := expressionStack.Pop();
      var popped := operatorStack.Pop();
      if popped.Throws? {
        assert Collapse(exprs, ops, expression) == Throws(EmptyStack);
        return Throws(popped.exception);
      }
      var operatorResult := GetBinop(popped.value.value);
      if operatorResult.Err? {
        assert Collapse(exprs, ops, expression) == Returns(Err("*** Something went wrong 3:\n\t" + operatorResult.error));
        return Returns(Err("*** Something went wrong 3:\n\t" + operatorResult.error));
      }
      CollapseUnfold(exprs, ops, expression);
      expression := ExpBin(expression, operatorResult.value, operand.value);
    }
    r := Returns(Ok(Applied(operatorStack.items, expression)));
  }

  /** One iteration of the reduction's loop; returns the new
      `pendingOperand`. */
  method ReduceToken(token: Token, expressionStack: Stack<Expression>, operatorStack: Stack<OperatorToken>, pendingOperand: bool) returns (r: Outcome<Result<bool>>)
    requires expressionStack as object != operatorStack
    modifies expressionStack, operatorStack
    ensures var step := ReduceStep(token, old(Reduction(expressionStack.items, operatorStack.items, pendingOperand)));
      (r.Throws? <==> step.Throws?) && (Rejected(r) <==> Rejected(step)) && !r.OutOfFuel?
      && (r.Throws? ==> r == Throws(EmptyStack))
      && (Rejected(r) ==> r.value.error == step.value.error)
      && (Parsed(r) ==> step.value.value == Reduction(expressionStack.items, operatorStack.items, r.value.value))
  {
    if token.Operator? {
      operatorStack.Push(token);
      return Returns(Ok(false));
    } else if token.NumberLiteral? {
      var expression := ExpInt(token.number);
      if pendingOperand {
        var collapsed := CollapseStack(expressionStack, operatorStack, expression);
        if collapsed.Throws? {
          return Throws(collapsed.exception);
        }
        if collapsed.value.Err? {
          return Returns(Err(collapsed.value.error));
        }
        expression := collapsed.value.value.expression;
      }
      expressionStack.Push(expression);
      return Returns(Ok(true));
    }
    r := Returns(Ok(pendingOperand));
  }

  /** The stack `tokens` is consumed from its top; when the parse stops
      early the rest of it is left in place. */
  method ParseReversePolishNotation(tokens: Stack<Token>) returns (r: Outcome<Result<Expression>>)
    modifies tokens
    ensures r == Reduce(old(tokens.items))
    ensures tokens.items <= old(tokens.items)
  {
    var expressionStack := new Stack<Expression>();
    var operatorStack := new Stack<OperatorToken>();
    var pendingOperand := false;
    while tokens.items != []
      invariant fresh(expressionStack) && fresh(operatorStack)
      invariant tokens.items <= old(tokens.items)
      invariant ReduceFrom(tokens.items, Reduction(expressionStack.items, operatorStack.items, pendingOperand))
             == Reduce(old(tokens.items))
      decreases |tokens.items|
    {
      var popped := tokens.Pop();
      var step := ReduceToken(popped.value, expressionStack, operatorStack, pendingOperand);
      if step.Throws? {
        return Throws(step.exception);
      }
      if step.value.Err? {
        return Returns(Err(step.value.error));
      }
      pendingOperand := step.value.value;
    }
    var last := expressionStack.Pop();
    if last.Throws? {
      return Throws(last.exception);
    }
    r := Returns(Ok(last.value));
  }

  // ---------------------------------------------------------------------
  // Properties of the shunting yard
  // ---------------------------------------------------------------------

  /** What `PopHigher` moves: the operators above the stack it leaves, top
      first, every one of them outranking the incoming operator. */
  lemma {:induction false} PopHigherOutput(y: Yard, priority: int)
    ensures PopHigher(y, priority).Ok? ==>
      var r := PopHigher(y, priority).value;
      r.output == y.output + Reversed(y.operators[|r.operators|..])
      && forall k :: |r.operators| <= k < |y.operators| ==> Outranks(y.operators[k], priority)
    decreases |y.operators|
  {
    var n := |y.operators|;
    if n != 0 && Outranks(y.operators[n - 1], priority) {
      var top := y.operators[n - 1];
      var y2 := Yard(y.output + [top], y.operators[..n - 1]);
      PopHigherUnfold(y, priority);
      PopHigherOutput(y2, priority);
      var r := PopHigher(y2, priority);
      if r.Ok? {
        var j := |r.value.operators|;
        PopMovesTop(y.output, y.operators, j);
        forall k | j <= k < n
          ensures Outranks(y.operators[k], priority)
        {
          if k < n - 1 {
            assert y.operators[k] == y2.operators[k];
          }
        }
      }
    } else {
      PopHigherStops(y, priority);
    }
  }

  /** `PopHigher` moves nothing when the top does not outrank. */
  lemma PopHigherStops(y: Yard, priority: int)
    requires y.operators == [] || !Outranks(y.operators[|y.operators| - 1], priority)
    ensures PopHigher(y, priority).Ok? ==> PopHigher(y, priority) == Ok(y)
    ensures y.operators[|y.operators|..] == [] && y.output + Reversed<OperatorToken>([]) == y.output
  {
  }

  /** `PopHigher` unfolded once when the top operator outranks. */
  lemma PopHigherUnfold(y: Yard, priority: int)
    requires y.operators != [] && Outranks(y.operators[|y.operators| - 1], priority)
    ensures PopHigher(y, priority)
         == PopHigher(Yard(y.output + [y.operators[|y.operators| - 1]], y.operators[..|y.operators| - 1]), priority)
  {
  }

  /** Moving the top to the output, then the part above `j` of what is
      left, moves the whole part above `j`. */
  lemma PopMovesTop(output: seq<Token>, ops: seq<OperatorToken>, j: nat)
    requires j < |ops|
    ensures (output + [ops[|ops| - 1]]) + Reversed(ops[..|ops| - 1][j..]) == output + Reversed(ops[j..])
  {
    var n := |ops|;
    assert ops[j..][..n - j - 1] == ops[..n - 1][j..];
    assert Reversed(ops[j..]) == [ops[n - 1]] + Reversed(ops[..n - 1][j..]);
    AppendAssociates(output, [ops[n - 1]], Reversed(ops[..n - 1][j..]));
  }

  lemma {:induction false} OperandsAppend(a: seq<Token>, b: seq<Token>)
    ensures Operands(a + b) == Operands(a) + Operands(b)
    decreases |a|
  {
    if a == [] {
      assert a + b == b;
    } else {
      var head := if a[0].NumberLiteral? then [ExpInt(a[0].number)] else [];
      assert (a + b)[0] == a[0];
      assert (a + b)[1..] == a[1..] + b;
      OperandsAppend(a[1..], b);
      calc {
        Operands(a + b);
        head + Operands(a[1..] + b);
        head + (Operands(a[1..]) + Operands(b));
        (head + Operands(a[1..])) + Operands(b);
      }
    }
  }

  lemma {:induction false} OperandsOfOperators(ops: seq<Token>)
    requires forall k :: 0 <= k < |ops| ==> ops[k].Operator?
    ensures Operands(ops) == []
    decreases |ops|
  {
    if ops != [] {
      OperandsOfOperators(ops[1..]);
    }
  }

  /** One yard step adds to the output the number it reads, if any, and
      only binary operators. */
  lemma YardStepKeeps(token: Token, y: Yard)
    requires AllBinary(y.operators) && OperatorsBinary(y.output)
    ensures YardStep(token, y).Ok? ==>
      var y2 := YardStep(token, y).value;
      Operands(y2.output) == Operands(y.output) + Operands([token]) && OperatorsBinary(y2.output)
  {
    OperandsAppend(y.output, [token]);
    if IsBinaryOperator(token) {
      var p := Ops.PriorityBinop(GetBinop(token.value).value);
      PopHigherOutput(y, p);
      var y2 := PopHigher(y, p).value;
      var moved := Reversed(y.operators[|y2.operators|..]);
      OperandsOfOperators(moved);
      OperandsAppend(y.output, moved);
      assert AllBinary(moved);
    }
  }

  lemma {:induction false} YardFromKeeps(tokens: seq<Token>, index: nat, y: Yard)
    requires index <= |tokens| && AllBinary(y.operators) && OperatorsBinary(y.output)
    requires Operands(y.output) == Operands(tokens[..index])
    ensures YardFrom(tokens, index, y).Ok? ==>
      Operands(YardFrom(tokens, index, y).value) == Operands(tokens)
      && OperatorsBinary(YardFrom(tokens, index, y).value)
    decreases |tokens| - index
  {
    if index == |tokens| {
      OperandsOfOperators(y.operators);
      OperandsAppend(y.output, y.operators);
      assert tokens[..index] == tokens;
    } else {
      YardStepKeeps(tokens[index], y);
      var step := YardStep(tokens[index], y);
      if step.Ok? {
        assert tokens[..index + 1] == tokens[..index] + [tokens[index]];
        OperandsAppend(tokens[..index], [tokens[index]]);
        YardFromKeeps(tokens, index + 1, step.value);
      }
    }
  }

  /** The shunting yard keeps every number, in the order of the input, and
      puts only binary operators in the postfix list. */
  lemma PostfixKeeps(tokens: seq<Token>)
    ensures Postfix(tokens).Ok? ==>
      Operands(Postfix(tokens).value) == Operands(tokens) && OperatorsBinary(Postfix(tokens).value)
  {
    assert tokens[..0] == [];
    YardFromKeeps(tokens, 0, Yard([], []));
  }

  lemma {:induction false} YardFromAccepts(tokens: seq<Token>, index: nat, y: Yard)
    requires index <= |tokens| && AllBinary(y.operators)
    ensures YardFrom(tokens, index, y).Ok? <==> forall k :: index <= k < |tokens| ==> Shuntable(tokens[k])
    decreases |tokens| - index
  {
    if index < |tokens| {
      var step := YardStep(tokens[index], y);
      if step.Ok? {
        YardFromAccepts(tokens, index + 1, step.value);
      }
    }
  }

  /** The yard succeeds exactly when it accepts every token. */
  lemma PostfixAccepts(tokens: seq<Token>)
    ensures Postfix(tokens).Ok? <==> forall k :: 0 <= k < |tokens| ==> Shuntable(tokens[k])
  {
    YardFromAccepts(tokens, 0, Yard([], []));
  }

  lemma {:induction false} YardFromFirstError(tokens: seq<Token>, index: nat, y: Yard, k: nat)
    requires index <= k < |tokens| && !Shuntable(tokens[k]) && AllBinary(y.operators)
    requires forall j :: index <= j < k ==> Shuntable(tokens[j])
    ensures YardFrom(tokens, index, y) == Err(ShuntError(tokens[k]))
    decreases k - index
  {
    var step := YardStep(tokens[index], y);
    if index < k {
      YardFromFirstError(tokens, index + 1, step.value, k);
    }
  }

  /** The yard fails on the first token it does not accept (an operator
      that is not binary, such as `(` or `!`, or a token that is neither a
      number nor an operator), with that token's error. */
  lemma PostfixFirstError(tokens: seq<Token>, k: nat)
    requires k < |tokens| && !Shuntable(tokens[k])
    requires forall j :: 0 <= j < k ==> Shuntable(tokens[j])
    ensures Postfix(tokens) == Err(ShuntError(tokens[k]))
  {
    YardFromFirstError(tokens, 0, Yard([], []), k);
  }

  // ---------------------------------------------------------------------
  // Properties of the reduction
  // ---------------------------------------------------------------------

  /** The leaves of the expression stack, topmost expression first: the
      top holds the leftmost operands read so far. */
  function LeavesTopDown(exprs: seq<Expression>): seq<Expression>
  {
    if exprs == [] then [] else Leaves(exprs[|exprs| - 1]) + LeavesTopDown(exprs[..|exprs| - 1])
  }

  lemma {:induction false} CollapseLeaves(exprs: seq<Expression>, ops: seq<OperatorToken>, e: Expression)
    ensures Parsed(Collapse(exprs, ops, e)) ==>
      Leaves(Collapse(exprs, ops, e).value.value.expression) == Leaves(e) + LeavesTopDown(exprs)
    decreases |exprs|
  {
    if exprs != [] && ops != [] && GetBinop(ops[|ops| - 1].value).Ok? {
      var op := GetBinop(ops[|ops| - 1].value).value;
      var top := exprs[|exprs| - 1];
      CollapseUnfold(exprs, ops, e);
      CollapseLeaves(exprs[..|exprs| - 1], ops[..|ops| - 1], ExpBin(e, op, top));
      AppendAssociates(Leaves(e), Leaves(top), LeavesTopDown(exprs[..|exprs| - 1]));
    }
  }

  /** One reduction step puts the number it reads in front of the leaves on
      the expression stack. */
  lemma ReduceStepLeaves(token: Token, st: Reduction)
    ensures Parsed(ReduceStep(token, st)) ==>
      LeavesTopDown(ReduceStep(token, st).value.value.exprs) == Operands([token]) + LeavesTopDown(st.exprs)
  {
    assert Operands([token]) == (if token.NumberLiteral? then [ExpInt(token.number)] else []);
    if token.NumberLiteral? {
      var leaf := ExpInt(token.number);
      assert (st.exprs + [leaf])[..|st.exprs|] == st.exprs;
      if st.pending {
        CollapseLeaves(st.exprs, st.ops, leaf);
        var c := Collapse(st.exprs, st.ops, leaf);
        if Parsed(c) {
          assert LeavesTopDown([c.value.value.expression]) == Leaves(c.value.value.expression);
        }
      }
    }
  }

  lemma {:induction false} ReduceFromLeaves(tokens: seq<Token>, st: Reduction)
    ensures Parsed(ReduceFrom(tokens, st)) ==>
      Leaves(ReduceFrom(tokens, st).value.value) <= Operands(tokens) + LeavesTopDown(st.exprs)
    decreases |tokens|
  {
    if tokens != [] {
      var t := tokens[|tokens| - 1];
      var rest := tokens[..|tokens| - 1];
      assert tokens == rest + [t];
      ReduceStepLeaves(t, st);
      var step := ReduceStep(t, st);
      if Parsed(step) {
        var st2 := step.value.value;
        ReduceFromUnfold(tokens, st, st2);
        ReduceFromLeaves(rest, st2);
        OperandsAppend(rest, [t]);
        AppendAssociates(Operands(rest), Operands([t]), LeavesTopDown(st.exprs));
      } else {
        ReduceFromStopped(tokens, st);
      }
    }
  }

  /** `ReduceFrom` unfolded once past a step that parses. */
  lemma ReduceFromUnfold(tokens: seq<Token>, st: Reduction, st2: Reduction)
    requires tokens != [] && ReduceStep(tokens[|tokens| - 1], st) == Returns(Ok(st2))
    ensures ReduceFrom(tokens, st) == ReduceFrom(tokens[..|tokens| - 1], st2)
  {
  }

  /** A step that does not parse ends the reduction. */
  lemma ReduceFromStopped(tokens: seq<Token>, st: Reduction)
    requires tokens != [] && !Parsed(ReduceStep(tokens[|tokens| - 1], st))
    ensures !Parsed(ReduceFrom(tokens, st))
  {
  }

  /** The leaves of a parsed expression are numbers of the input, in the
      input's order: a prefix of its numbers (a number can be dropped, as
      in `1 * + 2`, never invented or reordered). */
  lemma ExpressionLeavesAreOperands(tokens: seq<Token>)
    ensures Parsed(ShuntingYard(tokens)) ==> Leaves(ShuntingYard(tokens).value.value) <= Operands(tokens)
  {
    PostfixKeeps(tokens);
    if Postfix(tokens).Ok? {
      ReduceFromLeaves(Postfix(tokens).value, Reduction([], [], false));
    }
  }

  /** The only errors the expression parser reports are the yard's: the
      checks marked "went wrong 2" and "went wrong 3" never fire, because
      only binary operators are ever stacked.  The parse ends in `Err`
      exactly when some token is not accepted by the yard. */
  lemma ShuntingYardErrors(tokens: seq<Token>)
    ensures Rejected(ShuntingYard(tokens)) <==> exists k :: 0 <= k < |tokens| && !Shuntable(tokens[k])
    ensures ShuntingYard(tokens).Throws? ==> ShuntingYard(tokens) == Throws(EmptyStack)
    ensures !ShuntingYard(tokens).OutOfFuel?
  {
    PostfixAccepts(tokens);
    PostfixKeeps(tokens);
  }

  // ---------------------------------------------------------------------
  // Properties of the commands
  // ---------------------------------------------------------------------

  /** `?` is another spelling of `PRINT`. */
  lemma QuestionMarkIsPrint(rest: seq<Token>)
    ensures ParseToCommand([Keyword("?")] + rest) == ParseToCommand([Keyword("PRINT")] + rest)
  {
    assert ([Keyword("?")] + rest)[1..] == rest;
    assert ([Keyword("PRINT")] + rest)[1..] == rest;
  }

  /** A string literal after `PRINT` is the whole expression: whatever
      follows it on the line is ignored. */
  lemma StringHeadIgnoresRest(text: string, rest: seq<Token>)
    ensures ParseToCommand([Keyword("PRINT"), StringLiteral(text)] + rest) == Returns(Ok(Print(ExpStr(text))))
  {
    var tokens := [Keyword("PRINT"), StringLiteral(text)] + rest;
    assert tokens[1..][0] == StringLiteral(text);
  }

  /** A command that parses is `PRINT` (or `?`) followed by a string
      literal, which becomes the expression, or by a number, which is the
      leftmost leaf of an expression over the line's numbers. */
  lemma ParsedCommandShape(tokens: seq<Token>)
    ensures Parsed(ParseToCommand(tokens)) ==>
      var e := ParseToCommand(tokens).value.value.expression;
      |tokens| >= 2 && tokens[0].Keyword? && tokens[0].value in Keywords
      && ((tokens[1].StringLiteral? && e == ExpStr(tokens[1].value))
          || (tokens[1].NumberLiteral? && Leaves(e) <= Operands(tokens[1..])
              && Leaves(e)[0] == ExpInt(tokens[1].number)))
  {
    if Parsed(ParseToCommand(tokens)) {
      var rest := tokens[1..];
      assert ParseToCommand(tokens) == ParseToPrintCommand(rest);
      if rest[0].NumberLiteral? {
        ExpressionLeavesAreOperands(rest);
        assert Operands(rest) == [ExpInt(rest[0].number)] + Operands(rest[1..]);
      }
    }
  }

  /** `parseToExpression` fails exactly on an empty list, on a first token
      that is neither a string nor a number, and on a number followed by
      a token the yard does not accept. */
  lemma ExpressionErrors(tokens: seq<Token>)
    ensures Rejected(ParseToExpression(tokens)) <==>
      tokens == [] || (!tokens[0].StringLiteral? && !tokens[0].NumberLiteral?)
      || (tokens[0].NumberLiteral? && exists k :: 0 <= k < |tokens| && !Shuntable(tokens[k]))
  {
    ShuntingYardErrors(tokens);
  }

  /** `parseToCommand` fails exactly on an empty line, a first token that
      is not `PRINT` or `?`, and an expression that fails; the expression's
      error is wrapped in the print error. */
  lemma CommandErrors(tokens: seq<Token>)
    ensures Rejected(ParseToCommand(tokens)) <==>
      tokens == [] || !tokens[0].Keyword? || tokens[0].value !in Keywords
      || Rejected(ParseToExpression(tokens[1..]))
    ensures (tokens != [] && tokens[0].Keyword? && tokens[0].value in Keywords
             && Rejected(ParseToExpression(tokens[1..]))) ==>
      ParseToCommand(tokens) == Returns(Err("*** Print error: ***\n\t" + ParseToExpression(tokens[1..]).value.error))
  {
  }

  /** The parse throws only inside the reduction of a line that is `PRINT`,
      a number, and tokens the yard accepts. */
  lemma CommandThrows(tokens: seq<Token>)
    ensures ParseToCommand(tokens).Throws? ==>
      ParseToCommand(tokens) == Throws(EmptyStack) && |tokens| >= 2 && tokens[1].NumberLiteral?
      && forall k :: 1 <= k < |tokens| ==> Shuntable(tokens[k])
  {
    if ParseToCommand(tokens).Throws? {
      var rest := tokens[1..];
      ShuntingYardErrors(rest);
      assert ParseToCommand(tokens) == ParseToPrintCommand(rest);
      assert ShuntingYard(rest).Throws?;
      assert Postfix(rest).Ok?;
      PostfixAccepts(rest);
      forall k | 1 <= k < |tokens|
        ensures Shuntable(tokens[k])
      {
        assert tokens[k] == rest[k - 1];
      }
    }
  }

  // ---------------------------------------------------------------------
  // Worked examples of the expression parser
  // ---------------------------------------------------------------------

  function Num(n: int): Token { NumberLiteral(n) }

  function Op(v: string): OperatorToken { Operator(v) }

  /** `YardFrom` unfolded once, for concrete lists. */
  lemma YardFromUnfold(tokens: seq<Token>, index: nat, y: Yard, y2: Yard)
    requires index < |tokens| && YardStep(tokens[index], y) == Ok(y2)
    ensures YardFrom(tokens, index, y) == YardFrom(tokens, index + 1, y2)
  {
  }

  /** The yard's step on a number. */
  lemma YardStepNumber(n: int, y: Yard)
    ensures YardStep(Num(n), y) == Ok(Yard(y.output + [Num(n)], y.operators))
  {
    var r := YardStep(Num(n), y);
    assert r.Ok? && r.value.output == y.output + [Num(n)] && r.value.operators == y.operators;
  }

  /** The yard's step on a binary operator that nothing stacked outranks. */
  lemma YardStepPush(v: string, op: Ops.BinaryOp, y: Yard)
    requires GetBinop(v) == Ok(op) && PopHigher(y, Ops.PriorityBinop(op)) == Ok(y)
    ensures YardStep(Op(v), y) == Ok(Yard(y.output, y.operators + [Op(v)]))
  {
    var r := YardStep(Op(v), y);
    assert r.Ok? && r.value.output == y.output && r.value.operators == y.operators + [Op(v)];
  }

  /** The yard on `2*3+4`: `+` pops `*`, which outranks it. */
  lemma HigherFirstPostfix(ts: seq<Token>)
    requires ts == [Num(2), Op("*"), Num(3), Op("+"), Num(4), EndOfLine]
    ensures Postfix(ts) == Ok([Num(2), Num(3), Op("*"), Num(4), Op("+")])
  {
    HigherFirstStart(ts);
    HigherFirstFinish(ts);
  }

  /** The yard after `2*3`. */
  lemma HigherFirstStart(ts: seq<Token>)
    requires ts == [Num(2), Op("*"), Num(3), Op("+"), Num(4), EndOfLine]
    ensures YardFrom(ts, 0, Yard([], [])) == YardFrom(ts, 3, Yard([Num(2), Num(3)], [Op("*")]))
  {
    var y2 := Yard([Num(2)], [Op("*")]);
    OperatorFirst(ts, Op("*"), Ops.Mult);
    YardStepNumber(3, y2);
    YardFromUnfold(ts, 2, y2, Yard(y2.output + [Num(3)], y2.operators));
    assert y2.output + [Num(3)] == [Num(2), Num(3)];
  }

  /** The yard after a number and a binary operator. */
  lemma OperatorFirst(ts: seq<Token>, o: OperatorToken, op: Ops.BinaryOp)
    requires |ts| > 2 && ts[0].NumberLiteral? && ts[1] == o && GetBinop(o.value) == Ok(op)
    ensures YardFrom(ts, 0, Yard([], [])) == YardFrom(ts, 2, Yard([ts[0]], [o]))
  {
    var y1 := Yard([] + [ts[0]], []);
    YardStepNumber(ts[0].number, Yard([], []));
    YardFromUnfold(ts, 0, Yard([], []), y1);
    YardStepPush(o.value, op, y1);
    YardFromUnfold(ts, 1, y1, Yard(y1.output, [] + [o]));
    assert y1.output == [ts[0]];
    assert [] + [o] == [o];
  }

  lemma HigherFirstFinish(ts: seq<Token>)
    requires ts == [Num(2), Op("*"), Num(3), Op("+"), Num(4), EndOfLine]
    ensures YardFrom(ts, 3, Yard([Num(2), Num(3)], [Op("*")])) == Ok([Num(2), Num(3), Op("*"), Num(4), Op("+")])
  {
    var y3 := Yard([Num(2), Num(3)], [Op("*")]);
    var y4 := Yard(y3.output + [Op("*")], [] + [Op("+")]);
    var y5 := Yard(y4.output + [Num(4)], y4.operators);
    assert y3.operators[..0] == [];
    assert PopHigher(y3, 5) == Ok(Yard(y3.output + [Op("*")], []));
    YardFromUnfold(ts, 3, y3, y4);
    YardStepNumber(4, y4);
    YardFromUnfold(ts, 4, y4, y5);
    YardFromUnfold(ts, 5, y5, y5);
    assert y5.output + y5.operators == [Num(2), Num(3), Op("*"), Num(4), Op("+")];
  }

  /** The four tokens after the first of `2 3 * 4 +` only stack up. */
  lemma HigherFirstStack(p: seq<Token>)
    requires p == [Num(2), Num(3), Op("*"), Num(4), Op("+")]
    ensures Reduce(p) == ReduceFrom([Num(2)], Reduction([ExpInt(4), ExpInt(3)], [Op("+"), Op("*")], true))
  {
    var s1 := Reduction([], [] + [Op("+")], false);
    var s2 := Reduction([] + [ExpInt(4)], s1.ops, true);
    var s3 := Reduction(s2.exprs, s2.ops + [Op("*")], false);
    var s4 := Reduction(s3.exprs + [ExpInt(3)], s3.ops, true);
    assert p[..4] == [Num(2), Num(3), Op("*"), Num(4)];
    assert p[..3] == [Num(2), Num(3), Op("*")];
    assert p[..2] == [Num(2), Num(3)];
    assert p[..4][..3] == p[..3] && p[..3][..2] == p[..2] && p[..2][..1] == [Num(2)];
    ReduceFromUnfold(p, Reduction([], [], false), s1);
    ReduceFromUnfold(p[..4], s1, s2);
    ReduceFromUnfold(p[..3], s2, s3);
    ReduceFromUnfold(p[..2], s3, s4);
    assert s4 == Reduction([ExpInt(4), ExpInt(3)], [Op("+"), Op("*")], true);
  }

  lemma HigherFirstReduce(p: seq<Token>)
    requires p == [Num(2), Num(3), Op("*"), Num(4), Op("+")]
    ensures Reduce(p) == Returns(Ok(ExpBin(ExpBin(ExpInt(2), Ops.Mult, ExpInt(3)), Ops.Plus, ExpInt(4))))
  {
    var e23 := ExpBin(ExpInt(2), Ops.Mult, ExpInt(3));
    var s4 := Reduction([ExpInt(4), ExpInt(3)], [Op("+"), Op("*")], true);
    var s5 := Reduction([ExpBin(e23, Ops.Plus, ExpInt(4))], [], true);
    HigherFirstStack(p);
    assert s4.exprs[..1] == [ExpInt(4)] && s4.ops[..1] == [Op("+")];
    assert Collapse(s4.exprs, s4.ops, ExpInt(2)) == Collapse([ExpInt(4)], [Op("+")], e23);
    assert Collapse([ExpInt(4)], [Op("+")], e23) == Returns(Ok(Applied([], ExpBin(e23, Ops.Plus, ExpInt(4)))));
    ReduceFromUnfold([Num(2)], s4, s5);
    assert [Num(2)][..0] == [];
  }

  /** An operator that binds tighter and comes first is applied first:
      `2*3+4` is `(2*3)+4`. */
  lemma HigherFirstExample()
    ensures ParseToCommand([Keyword("PRINT"), Num(2), Op("*"), Num(3), Op("+"), Num(4), EndOfLine])
         == Returns(Ok(Print(ExpBin(ExpBin(ExpInt(2), Ops.Mult, ExpInt(3)), Ops.Plus, ExpInt(4)))))
  {
    var tokens := [Keyword("PRINT"), Num(2), Op("*"), Num(3), Op("+"), Num(4), EndOfLine];
    var ts := tokens[1..];
    assert ts == [Num(2), Op("*"), Num(3), Op("+"), Num(4), EndOfLine];
    HigherFirstPostfix(ts);
    HigherFirstReduce([Num(2), Num(3), Op("*"), Num(4), Op("+")]);
  }

  /** The yard on `2+3*4`: `*` stacks above `+`, and the leftover
      operators are appended bottom first, `+` before `*`. */
  lemma LeftoverPostfix(ts: seq<Token>)
    requires ts == [Num(2), Op("+"), Num(3), Op("*"), Num(4), EndOfLine]
    ensures Postfix(ts) == Ok([Num(2), Num(3), Num(4), Op("+"), Op("*")])
  {
    LeftoverStart(ts);
    LeftoverFinish(ts);
  }

  /** The yard after `2+3`. */
  lemma LeftoverStart(ts: seq<Token>)
    requires ts == [Num(2), Op("+"), Num(3), Op("*"), Num(4), EndOfLine]
    ensures YardFrom(ts, 0, Yard([], [])) == YardFrom(ts, 3, Yard([Num(2), Num(3)], [Op("+")]))
  {
    var y2 := Yard([Num(2)], [Op("+")]);
    OperatorFirst(ts, Op("+"), Ops.Plus);
    YardStepNumber(3, y2);
    YardFromUnfold(ts, 2, y2, Yard(y2.output + [Num(3)], y2.operators));
    assert y2.output + [Num(3)] == [Num(2), Num(3)];
  }

  lemma LeftoverFinish(ts: seq<Token>)
    requires ts == [Num(2), Op("+"), Num(3), Op("*"), Num(4), EndOfLine]
    ensures YardFrom(ts, 3, Yard([Num(2), Num(3)], [Op("+")])) == Ok([Num(2), Num(3), Num(4), Op("+"), Op("*")])
  {
    var y3 := Yard([Num(2), Num(3)], [Op("+")]);
    var y4 := Yard(y3.output, y3.operators + [Op("*")]);
    var y5 := Yard(y4.output + [Num(4)], y4.operators);
    assert PopHigher(y3, 6) == Ok(y3);
    YardStepPush("*", Ops.Mult, y3);
    YardFromUnfold(ts, 3, y3, y4);
    YardStepNumber(4, y4);
    YardFromUnfold(ts, 4, y4, y5);
    YardFromUnfold(ts, 5, y5, y5);
    assert y5.output + y5.operators == [Num(2), Num(3), Num(4), Op("+"), Op("*")];
  }

  lemma LeftoverReduce(p: seq<Token>)
    requires p == [Num(2), Num(3), Num(4), Op("+"), Op("*")]
    ensures Reduce(p) == Returns(Ok(ExpBin(ExpInt(2), Ops.Mult, ExpBin(ExpInt(3), Ops.Plus, ExpInt(4)))))
  {
    var e34 := ExpBin(ExpInt(3), Ops.Plus, ExpInt(4));
    var s1 := Reduction([], [] + [Op("*")], false);
    var s2 := Reduction([], s1.ops + [Op("+")], false);
    var s3 := Reduction([] + [ExpInt(4)], s2.ops, true);
    var s4 := Reduction([e34], [Op("*")], true);
    var s5 := Reduction([ExpBin(ExpInt(2), Ops.Mult, e34)], [], true);
    assert p[..4] == [Num(2), Num(3), Num(4), Op("+")];
    assert p[..3] == [Num(2), Num(3), Num(4)];
    assert p[..2] == [Num(2), Num(3)];
    assert p[..4][..3] == p[..3] && p[..3][..2] == p[..2] && p[..2][..1] == p[..1];
    ReduceFromUnfold(p, Reduction([], [], false), s1);
    ReduceFromUnfold(p[..4], s1, s2);
    ReduceFromUnfold(p[..3], s2, s3);
    assert s2.ops[..1] == [Op("*")];
    assert Collapse(s3.exprs, s2.ops, ExpInt(3)) == Returns(Ok(Applied([Op("*")], e34)));
    ReduceFromUnfold(p[..2], s3, s4);
    assert Collapse([e34], [Op("*")], ExpInt(2)) == Returns(Ok(Applied([], ExpBin(ExpInt(2), Ops.Mult, e34))));
    ReduceFromUnfold(p[..1], s4, s5);
    assert p[..1][..0] == [];
  }

  /** Because the leftover operators are appended bottom first, a tighter
      operator that comes second takes the looser one's result as its
      right operand: `2+3*4` is `2*(3+4)`. */
  lemma LeftoverOperatorsBottomFirst()
    ensures ParseToCommand([Keyword("PRINT"), Num(2), Op("+"), Num(3), Op("*"), Num(4), EndOfLine])
         == Returns(Ok(Print(ExpBin(ExpInt(2), Ops.Mult, ExpBin(ExpInt(3), Ops.Plus, ExpInt(4))))))
  {
    var tokens := [Keyword("PRINT"), Num(2), Op("+"), Num(3), Op("*"), Num(4), EndOfLine];
    var ts := tokens[1..];
    assert ts == [Num(2), Op("+"), Num(3), Op("*"), Num(4), EndOfLine];
    LeftoverPostfix(ts);
    LeftoverReduce([Num(2), Num(3), Num(4), Op("+"), Op("*")]);
  }

  lemma MissingOperatorPostfix(ts: seq<Token>)
    requires ts == [Num(1), Op("+"), Num(2), Num(3), EndOfLine]
    ensures Postfix(ts) == Ok([Num(1), Num(2), Num(3), Op("+")])
  {
    var y2 := Yard([Num(1)], [Op("+")]);
    var y3 := Yard(y2.output + [Num(2)], y2.operators);
    var y4 := Yard(y3.output + [Num(3)], y3.operators);
    OperatorFirst(ts, Op("+"), Ops.Plus);
    YardStepNumber(2, y2);
    YardFromUnfold(ts, 2, y2, y3);
    YardStepNumber(3, y3);
    YardFromUnfold(ts, 3, y3, y4);
    YardFromUnfold(ts, 4, y4, y4);
    assert y4.output + y4.operators == [Num(1), Num(2), Num(3), Op("+")];
  }

  lemma MissingOperatorReduce(p: seq<Token>)
    requires p == [Num(1), Num(2), Num(3), Op("+")]
    ensures Reduce(p) == Throws(EmptyStack)
  {
    var e23 := ExpBin(ExpInt(2), Ops.Plus, ExpInt(3));
    var s1 := Reduction([], [] + [Op("+")], false);
    var s2 := Reduction([] + [ExpInt(3)], s1.ops, true);
    var s3 := Reduction([e23], [], true);
    assert p[..3] == [Num(1), Num(2), Num(3)];
    assert p[..2] == [Num(1), Num(2)];
    assert p[..3][..2] == p[..2] && p[..2][..1] == p[..1];
    ReduceFromUnfold(p, Reduction([], [], false), s1);
    ReduceFromUnfold(p[..3], s1, s2);
    assert Collapse(s2.exprs, s2.ops, ExpInt(2)) == Returns(Ok(Applied([], e23)));
    ReduceFromUnfold(p[..2], s2, s3);
    assert Collapse([e23], [], ExpInt(1)) == Throws(EmptyStack);
    assert ReduceStep(Num(1), s3) == Throws(EmptyStack);
  }

  /** Two numbers side by side leave the reduction one operator short:
      `PRINT 1+2 3` pops an empty operator stack and throws. */
  lemma MissingOperatorThrows()
    ensures ParseToCommand([Keyword("PRINT"), Num(1), Op("+"), Num(2), Num(3), EndOfLine]) == Throws(EmptyStack)
  {
    var tokens := [Keyword("PRINT"), Num(1), Op("+"), Num(2), Num(3), EndOfLine];
    var ts := tokens[1..];
    assert ts == [Num(1), Op("+"), Num(2), Num(3), EndOfLine];
    MissingOperatorPostfix(ts);
    MissingOperatorReduce([Num(1), Num(2), Num(3), Op("+")]);
  }
}
