/** The operator tables of `src/main/parser.kt` (lines 10-79): unary and
    binary operators, their spellings and their priorities.  They are kept
    in a module of their own because both the tokenizer (which extends an
    operator only while the extension is a binary operator) and the parser
    use them. */
module MainOperators {
  import opened Common

  datatype UnaryOp = UMinus | Not

  datatype BinaryOp =
    | Plus | Minus | Mult | Div | Mod
    | Equal | Less | LessEq | Great | GreatEq | Diff
    | And | Or

  /** Every spelling `getBinop` accepts. */
  const BinopSymbols: set<string> :=
    {"+", "-", "*", "/", "MOD", "=", "<", "<=", "=<", ">", ">=", "=>",
     "<>", "><", "&", "AND", "|", "OR"}

  /** The spellings of one binary operator: the table of `getBinop` read
      backwards, one entry per operator. */
  function Spellings(op: BinaryOp): (s: set<string>)
    ensures s != {} && s <= BinopSymbols
  {
    match op
    case Plus => {"+"}
    case Minus => {"-"}
    case Mult => {"*"}
    case Div => {"/"}
    case Mod => {"MOD"}
    case Equal => {"="}
    case Less => {"<"}
    case LessEq => {"<=", "=<"}
    case Great => {">"}
    case GreatEq => {">=", "=>"}
    case Diff => {"<>", "><"}
    case And => {"&", "AND"}
    case Or => {"|", "OR"}
  }

  function PriorityUop(op: UnaryOp): int
  {
    match op
    case UMinus => 7
    case Not => 1
  }

  function PriorityBinop(op: BinaryOp): (p: int)
    ensures 2 <= p <= 6
  {
    match op
    case Mult | Div => 6
    case Plus | Minus => 5
    case Mod => 4
    case Equal | Less | LessEq | Great | GreatEq | Diff => 3
    case And | Or => 2
  }

  /** `Token.Operator.getUnop`: only `-` and `NOT` are unary. */
  function GetUnop(value: string): (r: Result<UnaryOp>)
    ensures r.Ok? <==> value in {"-", "NOT"}
    ensures r.Ok? ==> (r.value == UMinus <==> value == "-")
  {
    if value == "-" then Ok(UMinus)
    else if value == "NOT" then Ok(Not)
    else Err("*** '" + value + "' is not a valid unary operator ***")
  }

  /** `Token.Operator.getBinop`. */
  function GetBinop(value: string): (r: Result<BinaryOp>)
    ensures r.Ok? <==> value in BinopSymbols
    ensures r.Ok? ==> value in Spellings(r.value)
  {
    if value == "+" then Ok(Plus)
    else if value == "-" then Ok(Minus)
    else if value == "*" then Ok(Mult)
    else if value == "/" then Ok(Div)
    else if value == "MOD" then Ok(Mod)
    else if value == "=" then Ok(Equal)
    else if value == "<" then Ok(Less)
    else if value == "<=" || value == "=<" then Ok(LessEq)
    else if value == ">" then Ok(Great)
    else if value == ">=" || value == "=>" then Ok(GreatEq)
    else if value == "<>" || value == "><" then Ok(Diff)
    else if value == "&" || value == "AND" then Ok(And)
    else if value == "|" || value == "OR" then Ok(Or)
    else Err("*** '" + value + "' is not a valid binary operator ***")
  }

  /** The test the tokenizer applies when it extends an operator
      (`getBinop() !is Err`, by the contract of `GetBinop`). */
  predicate IsBinop(value: string) { value in BinopSymbols }

  /** The table is a bijection between operators and disjoint spelling sets:
      `getBinop` maps a spelling to an operator exactly when the spelling is
      one of that operator's, so synonyms such as `<=`/`=<` give one operator. */
  lemma GetBinopSpellings(value: string, op: BinaryOp)
    ensures GetBinop(value) == Ok(op) <==> value in Spellings(op)
  {
  }

  /** Unary minus binds tighter than every binary operator and `NOT` looser
      than every one; among binary operators multiplication and division
      bind tightest, then addition and subtraction, then MOD, then the
      comparisons, then AND/OR. */
  lemma PrecedenceOrder(op: BinaryOp)
    ensures PriorityBinop(op) < PriorityUop(UMinus)
    ensures PriorityUop(Not) < PriorityBinop(op)
    ensures PriorityBinop(Mult) == PriorityBinop(Div) > PriorityBinop(Plus) == PriorityBinop(Minus)
    ensures PriorityBinop(Minus) > PriorityBinop(Mod) > PriorityBinop(Equal)
    ensures op in {Equal, Less, LessEq, Great, GreatEq, Diff} ==> PriorityBinop(op) == PriorityBinop(Equal)
    ensures PriorityBinop(Equal) > PriorityBinop(And) == PriorityBinop(Or)
  {
  }
}
