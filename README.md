# AppleSoft BASIC interpreter in Kotlin: a Dafny model

The repository implements a small AppleSoft BASIC interpreter three times over:

- a legacy generation under `src/`: a tokenizer and a parser for `PRINT <expression>`;
- the `src/main` generation: tokenizer, parser and interpreter;
- the `core` library generation: tokenizer and interpreter.

Each generation has the same pipeline:

1. A hand-written tokenizer turns one input line into a list of tokens.
2. A parser turns the tokens into a command. It parses expressions with the
   shunting-yard algorithm, going from infix to postfix and then from
   postfix to a tree.
3. An interpreter object holds the variables, the stored program lines and
   the program counter, and executes commands. These include `PRINT`,
   `LET`, numbered line storage, `RUN`, `LIST`, `GOTO`, `GOSUB`, `IF ... THEN`
   and `:`-separated multiple commands.

Each generation is modelled in its own modules:

| module | file | models |
|---|---|---|
| `Common` | common.dfy | `Result`, Kotlin exceptions as `Outcome` values, character classes, digit strings, `sorted()`, `indexOf`, truncating `/` and `%` |
| `MainOperators` | main_operators.dfy | the operator table of `src/main/parser.kt` (`getUnop`, `getBinop`, priorities) |
| `MainTokenizer` | main_tokenizer.dfy | `src/main/tokenizer.kt` |
| `MainParser` | main_parser.dfy | the rest of `src/main/parser.kt` |
| `MainInterpreter` | main_interpreter.dfy | `src/main/interpreter.kt` |
| `CoreTokenizer` | core_tokenizer.dfy | `core/src/com/bocker/applesoft/tokenizer.kt` |
| `CoreInterpreter` | core_interpreter.dfy | `core/src/com/bocker/applesoft/interpreter.kt` |
| `LegacyTokenizer` | legacy_tokenizer.dfy | `src/tokenizer.kt` |
| `LegacyParser` | legacy_parser.dfy | `src/parser.kt` |

## How the model is built

**Tokenizers.** Each tokenizer is a `Tokenizer` class whose `input` and
`index` fields the reader methods update in place, as the Kotlin class does.
Each reader method (`ReadNumber`, `ReadOperator`, ...) keeps its `while`
loop. It is proved equal to a function of the line and the start index
(`NumberToken`, `OperatorToken`, ...). `Scan` is `nextToken` and
`TokensFrom` is the whole token list. The lemmas about those functions
state what the readers promise: maximal runs, greedy operators,
classification of words, and round trips from text to token.

**Parsers.** The parsers' stacks are classes (`ListStack`, `Stack`) with a
`seq` field. Each loop of the shunting yard and of the postfix reduction
is a method. Each method is proved equal to a step function (`YardStep`,
`ReduceStep`) folded over the input (`YardFrom`, `ReduceFrom`). The
lemmas state three things:

- the parse keeps the operands in order;
- it succeeds exactly on the tokens it accepts;
- what it produces on concrete inputs, including the groupings the code
  produces as written.

**Interpreters.** Each interpreter is an `Interpreter` class with the
source's fields, plus an `output` field for what `println` / `onPrint`
prints. Each method is proved equal to a ghost function over a `Machine`
value (`ExecCommand`, `ExecLine`, `IfStep`, `RunLoop`, ...). The lemmas
are stated about those functions.

**Exceptions and termination.** A Kotlin exception is modelled as
`Throws`, which ends every caller as an exception does. The exceptions are
division by zero, `first()` of an empty list, `TODO()`, and a pop of an
empty `java.util.Stack`. Programs can loop for ever (for example
`10 GOTO 10`), so the interpreter functions take a `fuel` bound on nested
execution and give `OutOfFuel` when it runs out.

## Model

| member | source | states |
|---|---|---|
| `Common.Span` | src/main/tokenizer.kt:103-106 | the scanner loop `while (index < length && p(input[index])) index++` stops at the end of the maximal run of `p` characters |
| `Common.CountChar` | core/src/com/bocker/applesoft/tokenizer.kt:112 | `count { it == c }` is at most the length and is 0 exactly when `c` does not occur |
| `Common.NatToString` | src/main/interpreter.kt:128 | `Int.toString` of a natural number is a non-empty string of digits |
| `Common.IntToString` | src/main/interpreter.kt:128 | `Int.toString` starts with `-` exactly for negative numbers |
| `Common.DigitsOfNatToString` | src/main/tokenizer.kt:100-109 | reading back the digits that `toString` prints gives the number again |
| `Common.SortedKeys` | src/main/interpreter.kt:84 | `keys.sorted()` is strictly increasing and holds exactly the keys |
| `Common.SortKeys` | src/main/interpreter.kt:84 | sorting by repeated least-key selection gives `SortedKeys` |
| `Common.Least` | src/main/interpreter.kt:84 | the key picked is in the set and below every other key |
| `Common.Reversed` | src/main/parser.kt:283 | popping a stack onto a list gives the stack back to front |
| `Common.IndexOf` | src/main/interpreter.kt:101 | `indexOf` gives the first position of the key, or -1 exactly when it is absent |
| `Common.IndexWhere` | src/main/parser.kt:109 | `indexOfFirst` gives the first position satisfying the predicate, or -1 exactly when none does |
| `Common.TruncMod` | src/main/interpreter.kt:197-199 | Kotlin `%` is smaller than the divisor in magnitude and has the sign of the dividend |
| `Common.TruncDivMod` | src/main/interpreter.kt:193-199 | Kotlin's division law `(a / b) * b + a % b == a` holds for truncating `/` and `%` |
| `MainOperators.Spellings` | src/main/parser.kt:30-52 | every binary operator has at least one spelling, all in the operator table |
| `MainOperators.PriorityBinop` | src/main/parser.kt:70-79 | binary priorities lie between 2 and 6 |
| `MainOperators.GetUnop` | src/main/parser.kt:22-28 | only `-` and `NOT` are unary operators, and `-` is `UMinus` |
| `MainOperators.GetBinop` | src/main/parser.kt:30-52 | `getBinop` succeeds exactly on the table's spellings and maps each one to an operator it spells |
| `MainOperators.GetBinopSpellings` | src/main/parser.kt:30-52 | `getBinop` maps a spelling to an operator exactly when it is one of that operator's spellings, so synonyms such as `<=` / `=<` give one operator |
| `MainOperators.PrecedenceOrder` | src/main/parser.kt:15-20 | unary minus binds tighter than every binary operator and `NOT` looser; `* /` > `+ -` > `MOD` > comparisons > `AND OR` |
| `MainTokenizer.WhitespaceEnd` | src/main/tokenizer.kt:93-98 | `skipWhitespace` stops at the first non-blank, having passed only blanks |
| `MainTokenizer.NumberToken` | src/main/tokenizer.kt:100-109 | `readNumber` takes the maximal digit run and yields its decimal value |
| `MainTokenizer.OperatorEndIsMaximal` | src/main/tokenizer.kt:111-124 | `readOperator` extends over operator characters while every prefix is a binary operator, and stops at the first character that would not extend it |
| `MainTokenizer.OperatorToken` | src/main/tokenizer.kt:111-124 | `readOperator` reads at least one character and yields them as a non-unary `Operator` |
| `MainTokenizer.ClassifyWord` | src/main/tokenizer.kt:126-140 | a word is a keyword if in `keywords`, else an operator if in `operators`, else an identifier |
| `MainTokenizer.IdentifierToken` | src/main/tokenizer.kt:126-140 | `readIdentifier` takes the maximal run of letters, digits and `_` after a letter and classifies it |
| `MainTokenizer.LiteralToken` | src/main/tokenizer.kt:142-150 | `readLiteral` takes everything up to the next quote, or to the end of the line, and skips the closing quote |
| `MainTokenizer.Scan` | src/main/tokenizer.kt:72-91 | `nextToken` gives `EndOfLine` exactly when only blanks remain, and advances on every token except the final ones |
| `MainTokenizer.TokensFrom` | src/main/tokenizer.kt:51-66 | the token list ends with its only `EndOfLine` or `Illegal` token |
| `MainTokenizer.Tokenizer.constructor` | src/main/tokenizer.kt:70 | a tokenizer starts at index 0 of its input |
| `MainTokenizer.Tokenizer.NextToken` | src/main/tokenizer.kt:72-91 | the method returns `Scan`'s token and leaves the index where `Scan` does |
| `MainTokenizer.Tokenizer.SkipWhitespace` | src/main/tokenizer.kt:93-98 | the loop leaves the index at `WhitespaceEnd` |
| `MainTokenizer.Tokenizer.ReadNumber` | src/main/tokenizer.kt:100-109 | the loop computes `NumberToken` |
| `MainTokenizer.Tokenizer.ReadOperator` | src/main/tokenizer.kt:111-124 | the loop computes `OperatorToken` |
| `MainTokenizer.Tokenizer.ReadIdentifier` | src/main/tokenizer.kt:126-140 | the loop computes `IdentifierToken` |
| `MainTokenizer.Tokenizer.ReadLiteral` | src/main/tokenizer.kt:142-150 | the loop computes `LiteralToken` |
| `MainTokenizer.TokenizeLine` | src/main/tokenizer.kt:51-66 | `tokenizeLine` keeps the line and collects exactly `TokensFrom(line, 0)` |
| `MainTokenizer.AtEnd` | src/main/tokenizer.kt:75-88 | past the last character there is only `EndOfLine` |
| `MainTokenizer.LastToken` | src/main/tokenizer.kt:51-66 | a token that reaches the end of the line is followed by `EndOfLine` alone |
| `MainTokenizer.ScanDot` | src/main/tokenizer.kt:75-89 | a `.` is accepted by no reader and is `Illegal` without advancing |
| `MainTokenizer.DecimalPointIsIllegal` | src/main/tokenizer.kt:100-109 | `1.5` tokenizes as the number 1 followed by `Illegal(".")`, which ends the line |
| `MainTokenizer.UnterminatedLiteral` | src/main/tokenizer.kt:142-150 | a string missing its closing quote runs to the end of the line |
| `MainTokenizer.UnterminatedScan` | src/main/tokenizer.kt:142-150 | an unterminated literal leaves the index one past the end |
| `MainTokenizer.NumberRoundTrip` | src/main/tokenizer.kt:100-109 | tokenizing the decimal text of `n` gives the literal `n` and `EndOfLine` |
| `MainTokenizer.NumberScan` | src/main/tokenizer.kt:100-109 | one scan of the decimal text of `n` reads all of it as `n` |
| `MainTokenizer.OperatorsExtendGreedily` | src/main/tokenizer.kt:111-124 | `<>` and `=<` are one token each; `*-` is two |
| `MainTokenizer.PairScan` | src/main/tokenizer.kt:111-124 | two operator characters that spell a binary operator are scanned as one token |
| `MainTokenizer.SplitPair` | src/main/tokenizer.kt:111-124 | two operator characters that do not spell a binary operator are two tokens |
| `MainParser.ListStack.constructor` | src/main/parser.kt:231-232 | a new stack is empty |
| `MainParser.ListStack.Push` | src/main/parser.kt:340 | push appends to the top |
| `MainParser.ListStack.Peek` | src/main/parser.kt:341 | peek gives the top, or null exactly when the stack is empty |
| `MainParser.ListStack.Pop` | src/main/parser.kt:342-348 | pop removes and returns the top, or gives null on an empty stack |
| `MainParser.Operands` | src/main/parser.kt:234-238 | the operand leaves of a token list are no more than its tokens |
| `MainParser.PopToParen` | src/main/parser.kt:241-243 | popping to `(` leaves only operators on the stack |
| `MainParser.PopHigher` | src/main/parser.kt:262-273 | popping higher-priority operators leaves only operators on the stack |
| `MainParser.YardStep` | src/main/parser.kt:234-281 | one step of the yard leaves only operators on the stack |
| `MainParser.PopHigherOutput` | src/main/parser.kt:262-273 | a successful pop keeps a bottom part of the stack; the operators above it go to the output top first; each has a binary priority at least the incoming operator's; what stays on top is a parenthesis or binds less tightly |
| `MainParser.YardStepOperator` | src/main/parser.kt:245-275 | an operator other than a parenthesis is stacked last with its own text; for tokenizer output, its unary flag is set exactly in unary position (at the start or after an operator other than `)`); a unary push leaves the output alone and fails only on an unknown unary operator; a binary push is `PopHigher` at the operator's priority followed by the push |
| `MainParser.Unaries` | src/main/parser.kt:310-317 | applying the stacked unary operators keeps the expression's leaves |
| `MainParser.Collapse` | src/main/parser.kt:318-328 | collapsing the expression stack leaves only operators on the operator stack |
| `MainParser.ReduceStep` | src/main/parser.kt:294-333 | one reduction step leaves only operators on the operator stack |
| `MainParser.ParseToExpression` | src/main/parser.kt:215-228 | no tokens, or a first token that is neither operand nor operator, is an error; otherwise it is the shunting yard's result |
| `MainParser.ParseToPrintCommand` | src/main/parser.kt:207-213 | `PRINT` succeeds exactly when its expression parses, and prints that expression |
| `MainParser.ParseToAssignment` | src/main/parser.kt:189-205 | `LET` succeeds exactly on identifier, `=` and a parsable expression, and assigns that expression |
| `MainParser.ParseToCommand` | src/main/parser.kt:107-187 | the command result keeps the original line |
| `MainParser.ParseKeywordCommand` | src/main/parser.kt:131-170 | a keyword command keeps the original line |
| `MainParser.ParseIfCommand` | src/main/parser.kt:148-158 | an `IF` command keeps the original line |
| `MainParser.PopToParenthesis` | src/main/parser.kt:241-243 | the method computes `PopToParen` on the two stacks |
| `MainParser.PopHigherOperators` | src/main/parser.kt:262-273 | the method computes `PopHigher` on the two stacks |
| `MainParser.ShuntToken` | src/main/parser.kt:234-281 | one loop iteration computes `YardStep` on the two stacks |
| `MainParser.ParseShuntingYard` | src/main/parser.kt:230-286 | `parseShuntingYard` returns `ExpressionOf(tokens)`: postfix, then reduction |
| `MainParser.ApplyUnaryOperators` | src/main/parser.kt:310-317 | the loop computes `Unaries` |
| `MainParser.CollapseStack` | src/main/parser.kt:318-328 | the loop computes `Collapse` and empties the expression stack |
| `MainParser.ReduceToken` | src/main/parser.kt:294-333 | one loop iteration computes `ReduceStep` |
| `MainParser.ParseReversePolishNotation` | src/main/parser.kt:288-336 | `parseReversePolishNotation` returns `Reduce` of the postfix list |
| `MainParser.OperandsAppend` | src/main/parser.kt:230-286 | operands of a concatenation are the concatenation of operands |
| `MainParser.PopToParenKeepsOperands` | src/main/parser.kt:241-243 | popping to `(` adds no operand to the output |
| `MainParser.PopHigherKeepsOperands` | src/main/parser.kt:262-273 | popping operators adds no operand to the output |
| `MainParser.YardStepOperands` | src/main/parser.kt:234-281 | a yard step adds exactly the token's own operand to the output |
| `MainParser.YardFromOperands` | src/main/parser.kt:234-283 | the yard's output holds the input's operands in input order |
| `MainParser.PostfixKeepsOperands` | src/main/parser.kt:230-286 | the postfix list has the same operands, in the same order, as the infix tokens |
| `MainParser.CollapseLeaves` | src/main/parser.kt:318-328 | collapsing puts the stacked expressions' leaves after the new leaf, top first |
| `MainParser.ReduceStepLeaves` | src/main/parser.kt:294-333 | a reduction step adds the token's operand to the leaves |
| `MainParser.ReduceFromLeaves` | src/main/parser.kt:288-336 | every leaf of the reduced tree comes from the postfix operands |
| `MainParser.ExpressionLeavesAreOperands` | src/main/parser.kt:230-336 | every leaf of a parsed expression is an operand of the input |
| `MainParser.PopToParenWithoutOpen` | src/main/parser.kt:241-243 | `)` with no `(` on the stack is an error |
| `MainParser.UnmatchedCloseIsError` | src/main/parser.kt:241-243 | an expression with a `)` before any `(` fails to parse |
| `MainParser.PrecedenceExample` | src/main/parser.kt:262-273 | `2+3*4` parses as `2+(3*4)` |
| `MainParser.MixedPrioritiesRegroup` | src/main/parser.kt:318-328 | as written, `2+3*4-5` parses as `2-((3*4)+5)` |
| `MainParser.LeadingMinusIsUnary` | src/main/parser.kt:245-254 | `-1+2` parses as `(-1)+2` |
| `MainParser.PartsCarryOriginal` | src/main/parser.kt:107-187 | every nested command result, down through `:` and `IF ... THEN`, carries the original line |
| `MainParser.MultipleCommandShape` | src/main/parser.kt:109-127 | a line with `:` is a `Multiple` of the parts before and after the first `:` |
| `MainParser.StoreCommandShape` | src/main/parser.kt:171-177 | a leading line number stores the rest of the line's command, or passes its error on |
| `MainParser.IfCommandShape` | src/main/parser.kt:148-158 | `IF` succeeds exactly when the condition and the `THEN` part both parse; otherwise it fails with the `No valid expression` message |
| `MainParser.OnErrCommandShape` | src/main/parser.kt:159-168 | `ONERR` wraps the rest of the line's command, or passes its error on |
| `MainParser.FlatKeywordCommand` | src/main/parser.kt:131-170 | keywords other than `IF` and `ONERR` give no nested command |
| `MainParser.OtherKeywordsUnsupported` | src/main/parser.kt:169 | a keyword without a branch is an error |
| `MainParser.LineArgumentDefaults` | src/main/parser.kt:135-147 | `RUN` and `GOTO` take the following number, or 0 when there is none |
| `MainParser.OperatorsAloneNoExpression` | src/main/parser.kt:335 | a postfix list of operators alone reduces to `No expression` |
| `MainInterpreter.Lookup` | src/main/interpreter.kt:153-155 | reading a variable gives its value and binds an unset one to 0, changing nothing else |
| `MainInterpreter.Evaluate` | src/main/interpreter.kt:157-163 | evaluation never runs out of fuel, and changes the variables only by binding the identifiers it reads |
| `MainInterpreter.EvaluateBinary` | src/main/interpreter.kt:165-256 | a binary expression binds only the identifiers of its operands |
| `MainInterpreter.ApplyBinary` | src/main/interpreter.kt:165-256 | applying an operator never runs out of fuel |
| `MainInterpreter.PrintEffect` | src/main/interpreter.kt:125-151 | `interpretPrint` prints exactly one line and changes no stored line or counter |
| `MainInterpreter.AssignEffect` | src/main/interpreter.kt:117-123 | `interpretAssignment` changes no stored line or counter |
| `MainInterpreter.ListOutputSnoc` | src/main/interpreter.kt:85-89 | listing one more key adds that line's original text |
| `MainInterpreter.Selection` | src/main/interpreter.kt:93 | RUN's selection is increasing and holds only stored keys from the start line on |
| `MainInterpreter.ExecCommand` | src/main/interpreter.kt:23-35 | executing a command keeps every stored line one the interpreter handles |
| `MainInterpreter.ExecLine` | src/main/interpreter.kt:37-81 | executing a line keeps every stored line one the interpreter handles |
| `MainInterpreter.GoSubStep` | src/main/interpreter.kt:63-66 | `GOSUB` keeps every stored line one the interpreter handles |
| `MainInterpreter.IfStep` | src/main/interpreter.kt:106-115 | `IF` keeps every stored line one the interpreter handles |
| `MainInterpreter.ExecAll` | src/main/interpreter.kt:73-79 | the parts of a `Multiple` keep every stored line one the interpreter handles |
| `MainInterpreter.StartRun` | src/main/interpreter.kt:92-96 | `RUN` keeps every stored line one the interpreter handles |
| `MainInterpreter.RunLoop` | src/main/interpreter.kt:97-103 | the run loop keeps every stored line one the interpreter handles |
| `MainInterpreter.Interpreter.constructor` | src/main/interpreter.kt:17-21 | the interpreter starts with no variables, no lines, `pc = -1` and no output |
| `MainInterpreter.Interpreter.Println` | src/main/interpreter.kt:31 | `println` appends one line to the output |
| `MainInterpreter.Interpreter.InterpretCommand` | src/main/interpreter.kt:23-35 | the method answers and updates the fields as `ExecCommand` says |
| `MainInterpreter.Interpreter.InterpretLine` | src/main/interpreter.kt:37-81 | the method answers and updates the fields as `ExecLine` says |
| `MainInterpreter.Interpreter.InterpretNested` | src/main/interpreter.kt:51-79 | the branches that execute further commands agree with `ExecLine` |
| `MainInterpreter.Interpreter.InterpretMultiple` | src/main/interpreter.kt:73-79 | the `forEach` loop agrees with `ExecAll` |
| `MainInterpreter.Interpreter.ListProgramInMemory` | src/main/interpreter.kt:83-90 | `listProgramInMemory` agrees with `ListEffect` |
| `MainInterpreter.Interpreter.PrintOriginals` | src/main/interpreter.kt:85-89 | the loop prints the original text of each listed line, in key order |
| `MainInterpreter.Interpreter.RunProgram` | src/main/interpreter.kt:92-104 | `runProgram` agrees with `StartRun` |
| `MainInterpreter.Interpreter.RunLines` | src/main/interpreter.kt:97-103 | the `while (true)` loop agrees with `RunLoop` |
| `MainInterpreter.Interpreter.InterpretGoSub` | src/main/interpreter.kt:63-66 | `GOSUB` agrees with `GoSubStep` |
| `MainInterpreter.Interpreter.InterpretIf` | src/main/interpreter.kt:106-115 | `interpretIf` agrees with `IfStep` |
| `MainInterpreter.Interpreter.InterpretAssignment` | src/main/interpreter.kt:117-123 | `interpretAssignment` agrees with `AssignEffect` |
| `MainInterpreter.Interpreter.InterpretPrint` | src/main/interpreter.kt:125-151 | `interpretPrint` agrees with `PrintEffect` |
| `MainInterpreter.UnaryAlwaysThrows` | src/main/interpreter.kt:161 | an expression holding a unary operator reaches `TODO()` and throws |
| `MainInterpreter.PlainExpressionsReturn` | src/main/interpreter.kt:157-256 | an expression with no unary operator and no division returns |
| `MainInterpreter.BinaryReturns` | src/main/interpreter.kt:165-256 | a binary step other than `/` and `MOD` returns once both operands do |
| `MainInterpreter.ApplyReturns` | src/main/interpreter.kt:165-256 | only `/` and `MOD` can throw |
| `MainInterpreter.ApplyBinaryOutcomes` | src/main/interpreter.kt:165-256 | an operator gives an error value exactly on ill-typed operands, and throws exactly on integer division or `MOD` by 0 |
| `MainInterpreter.IntegerComparisons` | src/main/interpreter.kt:201-243 | comparisons on integers give 1 when true and 0 when false (on unbounded integers) |
| `MainInterpreter.DivisionLaw` | src/main/interpreter.kt:193-199 | `/` and `MOD` truncate: `q * b + r == a` with `abs(r) < abs(b)` |
| `MainInterpreter.ParseErrorIsPrinted` | src/main/interpreter.kt:30-33 | a parse error is printed and changes nothing else |
| `MainInterpreter.StoreOverwrites` | src/main/interpreter.kt:47-50 | a numbered line is stored under its number, replacing that line alone |
| `MainInterpreter.ControlAnswers` | src/main/interpreter.kt:59-72 | `GOTO` sets `pc` and answers false; `POP` answers false; `RETURN` and `REM` do nothing and answer true |
| `MainInterpreter.GoSubOfGoTo` | src/main/interpreter.kt:63-66 | `GOSUB` to a stored `GOTO` line moves `pc` and still answers true |
| `MainInterpreter.IfLiteralConditions` | src/main/interpreter.kt:106-115 | a string condition does nothing; a condition `<= 0` does nothing; a positive one runs the `THEN` command |
| `MainInterpreter.AssignmentBindsOnlyOnSuccess` | src/main/interpreter.kt:117-123 | assignment binds the value on success; on an error it prints the error and keeps the old value |
| `MainInterpreter.UnsetVariableReadsZero` | src/main/interpreter.kt:153-155 | printing a variable that was never set prints 0 and binds it to 0 |
| `MainInterpreter.MultipleIgnoresPartResult` | src/main/interpreter.kt:73-79 | whatever step a part of a `Multiple` returns, ordinary or failed, the next parts run from the machine it left; only an exception stops the loop, and it is passed on |
| `MainInterpreter.ExecAllAppend` | src/main/interpreter.kt:73-79 | running the parts `a + b` is running `a`, then `b` from where `a` left the machine, unless `a` threw |
| `MainInterpreter.MultipleRunsEveryPart` | src/main/interpreter.kt:73-79 | when every part prints one fixed text (a parse error or `PRINT` of a string), a `Multiple` prints all the texts in order; a failed part does not stop the ones after it |
| `MainInterpreter.MultipleIsOrdinary` | src/main/interpreter.kt:73-79 | a `Multiple` always answers true |
| `MainInterpreter.ListOutputAll` | src/main/interpreter.kt:85-89 | listing given keys prints one line per key, the original text of each |
| `MainInterpreter.ListShowsEveryLineInOrder` | src/main/interpreter.kt:83-90 | `LIST` prints every stored line once, in increasing line order, and changes nothing else; listing twice prints it twice |
| `MainInterpreter.RunWithoutLinesThrows` | src/main/interpreter.kt:93-95 | `RUN n` with no stored line from `n` on throws `NoSuchElementException` |
| `MainInterpreter.GoToMissingLineStops` | src/main/interpreter.kt:97-103 | a `GOTO` to a line that is not stored ends the run quietly |
| `MainInterpreter.RunResumesAtFirstKey` | src/main/interpreter.kt:100-101 | after an ordinary line that moved `pc` off the selection, the run resumes at the first selected line |
| `MainInterpreter.RunLoopOrdinary` | src/main/interpreter.kt:97-103 | after an ordinary line the run moves to the next selected key, or ends after the last |
| `MainInterpreter.RunLoopPrints` | src/main/interpreter.kt:97-103 | a program of `PRINT` literals prints its texts in line order from the current line on |
| `MainInterpreter.RunCommandStarts` | src/main/interpreter.kt:92-96 | `RUN n` starts the loop at the first stored line from `n` on |
| `MainInterpreter.RunPrintsInLineOrder` | src/main/interpreter.kt:92-104 | running a program of `PRINT` literals prints every text once, in increasing line order |
| `CoreTokenizer.WhitespaceEnd` | core/src/com/bocker/applesoft/tokenizer.kt:97-102 | `skipWhitespace` stops at the first non-blank, having passed only blanks |
| `CoreTokenizer.ClassifyNumber` | core/src/com/bocker/applesoft/tokenizer.kt:112-116 | a number text is a literal with fewer than two dots, and `Illegal` otherwise |
| `CoreTokenizer.NumberToken` | core/src/com/bocker/applesoft/tokenizer.kt:104-117 | `readNumber` takes the maximal run of digits and dots and classifies it by its dots |
| `CoreTokenizer.OperatorEndIsMaximal` | core/src/com/bocker/applesoft/tokenizer.kt:119-132 | `readOperator` extends while every prefix is a binary operator, and stops at the first character that would not extend it |
| `CoreTokenizer.OperatorToken` | core/src/com/bocker/applesoft/tokenizer.kt:119-132 | `readOperator` reads at least one character and yields them as an `Operator` |
| `CoreTokenizer.ClassifyWord` | core/src/com/bocker/applesoft/tokenizer.kt:134-148 | a word is a keyword if in `keywords`, else an operator if in `operators`, else an identifier |
| `CoreTokenizer.IdentifierToken` | core/src/com/bocker/applesoft/tokenizer.kt:134-148 | `readIdentifier` takes the maximal identifier run after a letter and classifies it |
| `CoreTokenizer.LiteralToken` | core/src/com/bocker/applesoft/tokenizer.kt:150-158 | `readLiteral` takes everything up to the next quote, or to the end of the line |
| `CoreTokenizer.Scan` | core/src/com/bocker/applesoft/tokenizer.kt:76-95 | `nextToken` gives `EndOfLine` exactly when only blanks remain, and advances on every non-final token |
| `CoreTokenizer.TokensFrom` | core/src/com/bocker/applesoft/tokenizer.kt:55-70 | the token list ends with its only `EndOfLine` or `Illegal` token |
| `CoreTokenizer.Tokenizer.constructor` | core/src/com/bocker/applesoft/tokenizer.kt:74 | a tokenizer starts at index 0 of its input |
| `CoreTokenizer.Tokenizer.NextToken` | core/src/com/bocker/applesoft/tokenizer.kt:76-95 | the method computes `Scan` |
| `CoreTokenizer.Tokenizer.SkipWhitespace` | core/src/com/bocker/applesoft/tokenizer.kt:97-102 | the loop computes `WhitespaceEnd` |
| `CoreTokenizer.Tokenizer.ReadNumber` | core/src/com/bocker/applesoft/tokenizer.kt:104-117 | the loop computes `NumberToken` |
| `CoreTokenizer.Tokenizer.ReadOperator` | core/src/com/bocker/applesoft/tokenizer.kt:119-132 | the loop computes `OperatorToken` |
| `CoreTokenizer.Tokenizer.ReadIdentifier` | core/src/com/bocker/applesoft/tokenizer.kt:134-148 | the loop computes `IdentifierToken` |
| `CoreTokenizer.Tokenizer.ReadLiteral` | core/src/com/bocker/applesoft/tokenizer.kt:150-158 | the loop computes `LiteralToken` |
| `CoreTokenizer.CountDots` | core/src/com/bocker/applesoft/tokenizer.kt:112 | the loop counts the dots: `CountChar(text, '.')` |
| `CoreTokenizer.TokenizeLine` | core/src/com/bocker/applesoft/tokenizer.kt:55-70 | `tokenizeLine` keeps the line and collects exactly `TokensFrom(line, 0)` |
| `CoreTokenizer.NumberText` | core/src/com/bocker/applesoft/tokenizer.kt:104-117 | a run of digits and dots is one literal with fewer than two dots, and an `Illegal` that ends the line otherwise |
| `CoreTokenizer.DecimalPoints` | core/src/com/bocker/applesoft/tokenizer.kt:112-116 | `1.5` is a literal; `1.2.3` is `Illegal` |
| `CoreTokenizer.IdentifierRoundTrip` | core/src/com/bocker/applesoft/tokenizer.kt:134-148 | a word that is no keyword or operator tokenizes as that identifier |
| `CoreTokenizer.LiteralRoundTrip` | core/src/com/bocker/applesoft/tokenizer.kt:150-158 | a quoted text without quotes inside tokenizes as that literal |
| `CoreTokenizer.UnterminatedLiteral` | core/src/com/bocker/applesoft/tokenizer.kt:150-158 | a string missing its closing quote runs to the end of the line |
| `CoreTokenizer.QuestionMarkAndIllegal` | core/src/com/bocker/applesoft/tokenizer.kt:76-95 | `?` is a keyword; `#` is `Illegal` |
| `CoreTokenizer.WordPriority` | core/src/com/bocker/applesoft/tokenizer.kt:14-51 | `THEN` and `ONERR` are keywords; `AND` and `NOT` are operators; `X$` is an identifier |
| `CoreTokenizer.OperatorsExtendGreedily` | core/src/com/bocker/applesoft/tokenizer.kt:119-132 | `<=` is one token; `(-` and `--` are two |
| `CoreTokenizer.PairScan` | core/src/com/bocker/applesoft/tokenizer.kt:119-132 | two operator characters that spell a binary operator are scanned as one token |
| `CoreTokenizer.SplitPair` | core/src/com/bocker/applesoft/tokenizer.kt:119-132 | two operator characters that do not spell a binary operator are two tokens |
| `CoreInterpreter.ApplyUnary` | core/src/com/bocker/applesoft/interpreter.kt:205-222 | a unary operator fails exactly on a string and otherwise gives an integer |
| `CoreInterpreter.Evaluate` | core/src/com/bocker/applesoft/interpreter.kt:197-203 | evaluation binds only the identifiers it reads |
| `CoreInterpreter.EvaluateUnary` | core/src/com/bocker/applesoft/interpreter.kt:205-222 | a unary expression binds only its operand's identifiers |
| `CoreInterpreter.EvaluateBinary` | core/src/com/bocker/applesoft/interpreter.kt:224-315 | a binary expression binds only its operands' identifiers |
| `CoreInterpreter.PrintEffect` | core/src/com/bocker/applesoft/interpreter.kt:152-191 | `interpretPrint` prints one line on success and nothing on an error, and changes no stored line, counter or flag |
| `CoreInterpreter.AssignEffect` | core/src/com/bocker/applesoft/interpreter.kt:143-150 | `interpretAssignment` prints nothing and changes no stored line, counter or flag |
| `CoreInterpreter.NextIndex` | core/src/com/bocker/applesoft/interpreter.kt:124-125 | the next index is one past the current key, or negative when `pc` is not in the selection |
| `CoreInterpreter.Interpreter.constructor` | core/src/com/bocker/applesoft/interpreter.kt:17-23 | the interpreter starts with no variables, no lines, `pc = -1`, `runNext = true` and no output |
| `CoreInterpreter.Interpreter.OnPrint` | core/src/com/bocker/applesoft/interpreter.kt:42 | `onPrint` appends one line to the output |
| `CoreInterpreter.Interpreter.InterpretCommand` | core/src/com/bocker/applesoft/interpreter.kt:25-45 | the method returns and updates the fields as `ExecCommand` says |
| `CoreInterpreter.Interpreter.InterpretLine` | core/src/com/bocker/applesoft/interpreter.kt:47-100 | the method returns and updates the fields as `ExecLine` says |
| `CoreInterpreter.Interpreter.InterpretNested` | core/src/com/bocker/applesoft/interpreter.kt:62-97 | the branches that execute further commands agree with `ExecLine` |
| `CoreInterpreter.Interpreter.InterpretMultiple` | core/src/com/bocker/applesoft/interpreter.kt:86-97 | the `withIndex` loop agrees with `ExecAll` |
| `CoreInterpreter.Interpreter.ListProgramInMemory` | core/src/com/bocker/applesoft/interpreter.kt:102-110 | `listProgramInMemory` agrees with `ListEffect` |
| `CoreInterpreter.Interpreter.PrintOriginals` | core/src/com/bocker/applesoft/interpreter.kt:104-108 | the loop prints the original text of each listed line, in key order |
| `CoreInterpreter.Interpreter.RunProgram` | core/src/com/bocker/applesoft/interpreter.kt:112-128 | `runProgram` agrees with `StartRun` |
| `CoreInterpreter.Interpreter.RunLines` | core/src/com/bocker/applesoft/interpreter.kt:117-127 | the `while (true)` loop agrees with `RunLoop` |
| `CoreInterpreter.Interpreter.InterpretGoSub` | core/src/com/bocker/applesoft/interpreter.kt:75-78 | `GOSUB` agrees with `GoSubStep` |
| `CoreInterpreter.Interpreter.InterpretIf` | core/src/com/bocker/applesoft/interpreter.kt:130-141 | `interpretIf` agrees with `IfStep` |
| `CoreInterpreter.Interpreter.InterpretAssignment` | core/src/com/bocker/applesoft/interpreter.kt:143-150 | `interpretAssignment` agrees with `AssignEffect` |
| `CoreInterpreter.Interpreter.InterpretPrint` | core/src/com/bocker/applesoft/interpreter.kt:152-191 | `interpretPrint` agrees with `PrintEffect` |
| `CoreInterpreter.UnaryOperators` | core/src/com/bocker/applesoft/interpreter.kt:205-222 | unary minus negates and is its own inverse; `NOT n` is 1 exactly when `n <= 0`, and `NOT NOT n` is 1 exactly when `n > 0` |
| `CoreInterpreter.UnaryOnStringFails` | core/src/com/bocker/applesoft/interpreter.kt:205-222 | a unary operator on a string gives an error and keeps the operand's variable bindings |
| `CoreInterpreter.PlainExpressionsReturn` | core/src/com/bocker/applesoft/interpreter.kt:197-315 | an expression without division returns |
| `CoreInterpreter.BinaryReturns` | core/src/com/bocker/applesoft/interpreter.kt:224-315 | a binary step other than `/` and `MOD` returns once both operands do |
| `CoreInterpreter.UnsetVariableReadsZero` | core/src/com/bocker/applesoft/interpreter.kt:193-195 | printing a variable that was never set prints 0 and binds it to 0 |
| `CoreInterpreter.AssignmentBindsOnlyOnSuccess` | core/src/com/bocker/applesoft/interpreter.kt:143-150 | assignment binds the value exactly when evaluation succeeds; otherwise it returns the error and keeps the old value |
| `CoreInterpreter.ParseErrorIsPrinted` | core/src/com/bocker/applesoft/interpreter.kt:36-42 | a parse error is printed once, sets `runNext`, and is returned |
| `CoreInterpreter.FailuresPrintedByInterpretCommand` | core/src/com/bocker/applesoft/interpreter.kt:42 | one `interpretCommand` call prints a failing command's message after whatever `interpretLine` printed, unless the command is a `Multiple` |
| `CoreInterpreter.IfConsequentFailurePrintedTwice` | core/src/com/bocker/applesoft/interpreter.kt:130-139 | the failing consequent of a true `IF` is printed by the inner `interpretCommand` and again by the outer one, so the message appears twice |
| `CoreInterpreter.IfOneThenReturnPrintsTwice` | core/src/com/bocker/applesoft/interpreter.kt:130-139 | `IF 1 THEN RETURN` fails with the RETURN message and prints it twice |
| `CoreInterpreter.StoreOverwrites` | core/src/com/bocker/applesoft/interpreter.kt:57-61 | a numbered line is stored under its number, replacing that line alone |
| `CoreInterpreter.ControlCommands` | core/src/com/bocker/applesoft/interpreter.kt:70-85 | `GOTO` sets `pc` and clears `runNext`; `RETURN` and `POP` fail as not implemented; `REM` does nothing; `GOSUB` to a missing line fails |
| `CoreInterpreter.OnErrRunsItsCommand` | core/src/com/bocker/applesoft/interpreter.kt:98 | `ONERR c` executes exactly as `c` |
| `CoreInterpreter.IfConditions` | core/src/com/bocker/applesoft/interpreter.kt:130-141 | a string condition fails; a condition `<= 0` does nothing; a positive one runs the `THEN` command |
| `CoreInterpreter.MultipleFailureRule` | core/src/com/bocker/applesoft/interpreter.kt:87-94 | a failing part stops a `Multiple` exactly when the next part parsed and is not `ONERR` |
| `CoreInterpreter.LastFailureIsOk` | core/src/com/bocker/applesoft/interpreter.kt:89-96 | a failure in the last part does not make the `Multiple` fail |
| `CoreInterpreter.ParseErrorInMultiple` | core/src/com/bocker/applesoft/interpreter.kt:86-97 | a parse error in a part stops the line unless the next part is `ONERR` |
| `CoreInterpreter.MultiplePrintsInOrder` | core/src/com/bocker/applesoft/interpreter.kt:86-97 | a `Multiple` of literal `PRINT`s prints their texts in order and succeeds |
| `CoreInterpreter.ListShowsEveryLineInOrder` | core/src/com/bocker/applesoft/interpreter.kt:102-110 | `LIST` prints every stored line once, in increasing line order, and changes nothing else |
| `CoreInterpreter.RunWithoutLinesThrows` | core/src/com/bocker/applesoft/interpreter.kt:113-115 | `RUN n` with no stored line from `n` on throws `NoSuchElementException` |
| `CoreInterpreter.RunStopsAtFailingLine` | core/src/com/bocker/applesoft/interpreter.kt:118-120 | a failing line ends the run with its error, prefixed by its line number |
| `CoreInterpreter.GoToMissingLineFails` | core/src/com/bocker/applesoft/interpreter.kt:117-121 | a `GOTO` to a line that is not stored ends the run with `No such line in memory` |
| `CoreInterpreter.RemAfterGoToNeverEnds` | core/src/com/bocker/applesoft/interpreter.kt:123-126 | a `REM` reached by `GOTO` leaves `runNext` false, so the run never moves on |
| `CoreInterpreter.GoToRemNeverEnds` | core/src/com/bocker/applesoft/interpreter.kt:70-85 | so `10 GOTO 20` followed by `20 REM` never ends once RUN reaches 10 |
| `CoreInterpreter.RunLoopPrints` | core/src/com/bocker/applesoft/interpreter.kt:117-127 | a program of `PRINT` literals prints its texts in line order from the current line on |
| `CoreInterpreter.RunCommandStarts` | core/src/com/bocker/applesoft/interpreter.kt:112-115 | `RUN n` starts the loop at the first stored line from `n` on |
| `CoreInterpreter.RunPrintsInLineOrder` | core/src/com/bocker/applesoft/interpreter.kt:112-128 | running a program of `PRINT` literals prints every text once, in increasing line order, and succeeds |
| `LegacyTokenizer.WhitespaceEnd` | src/tokenizer.kt:72-77 | `skipWhitespace` stops at the first non-blank, having passed only blanks |
| `LegacyTokenizer.NumberToken` | src/tokenizer.kt:79-88 | `readNumber` takes the maximal digit run and yields its decimal value |
| `LegacyTokenizer.OperatorToken` | src/tokenizer.kt:90-99 | `readOperator` takes the maximal run of operator characters, whatever they spell |
| `LegacyTokenizer.ClassifyWord` | src/tokenizer.kt:101-115 | a word is a keyword if in `keywords`, else an operator if in `operators`, else an identifier |
| `LegacyTokenizer.IdentifierToken` | src/tokenizer.kt:101-115 | `readIdentifier` takes the maximal identifier run after a letter and classifies it |
| `LegacyTokenizer.LiteralToken` | src/tokenizer.kt:117-125 | `readLiteral` takes everything up to the next quote, or to the end of the line |
| `LegacyTokenizer.Scan` | src/tokenizer.kt:55-70 | `nextToken` gives `EndOfLine` exactly when only blanks remain, and advances on every non-final token |
| `LegacyTokenizer.TokensFrom` | src/tokenizer.kt:34-49 | the token list ends with its only `EndOfLine` or `Illegal` token |
| `LegacyTokenizer.Tokenizer.constructor` | src/tokenizer.kt:53 | a tokenizer starts at index 0 of its input |
| `LegacyTokenizer.Tokenizer.NextToken` | src/tokenizer.kt:55-70 | the method computes `Scan` |
| `LegacyTokenizer.Tokenizer.SkipWhitespace` | src/tokenizer.kt:72-77 | the loop computes `WhitespaceEnd` |
| `LegacyTokenizer.Tokenizer.ReadNumber` | src/tokenizer.kt:79-88 | the loop computes `NumberToken` |
| `LegacyTokenizer.Tokenizer.ReadOperator` | src/tokenizer.kt:90-99 | the loop computes `OperatorToken` |
| `LegacyTokenizer.Tokenizer.ReadIdentifier` | src/tokenizer.kt:101-115 | the loop computes `IdentifierToken` |
| `LegacyTokenizer.Tokenizer.ReadLiteral` | src/tokenizer.kt:117-125 | the loop computes `LiteralToken` |
| `LegacyTokenizer.TokenizeLine` | src/tokenizer.kt:34-49 | `tokenize_line` collects exactly `TokensFrom(line, 0)` |
| `LegacyTokenizer.NumberRoundTrip` | src/tokenizer.kt:79-88 | tokenizing the decimal text of `n` gives the literal `n` and `EndOfLine` |
| `LegacyTokenizer.LiteralRoundTrip` | src/tokenizer.kt:117-125 | a quoted text without quotes inside tokenizes as that literal |
| `LegacyTokenizer.UnterminatedLiteral` | src/tokenizer.kt:117-125 | a string missing its closing quote runs to the end of the line |
| `LegacyTokenizer.OperatorTokensAreGreedy` | src/tokenizer.kt:90-99 | an operator token is the whole run of operator characters at that point |
| `LegacyTokenizer.GreedyExamples` | src/tokenizer.kt:90-99 | `(-` and `<>` are one token each |
| `LegacyTokenizer.PairScan` | src/tokenizer.kt:90-99 | any two operator characters are scanned as one token |
| `LegacyTokenizer.StrayCharactersAreIllegal` | src/tokenizer.kt:55-70 | `?`, `.` and `=` are no token this tokenizer knows, and end the line as `Illegal` |
| `LegacyTokenizer.WordClasses` | src/tokenizer.kt:101-115 | a word is a keyword, an operator or an identifier, and carries its text |
| `LegacyParser.GetUnop` | src/parser.kt:21-27 | only `-` and `!` are unary operators, and `-` is `UMinus` |
| `LegacyParser.Symbol` | src/parser.kt:29-51 | every binary operator has a spelling in the table |
| `LegacyParser.BinopTable` | src/parser.kt:29-51 | `getBinop` succeeds exactly on the table's spellings, and otherwise gives the `not a valid binary operator` message |
| `LegacyParser.SymbolRoundTrip` | src/parser.kt:29-51 | each operator has exactly one spelling: `getBinop` maps a spelling to an operator exactly when it is that operator's |
| `LegacyParser.LaterTableExtends` | src/parser.kt:29-51 | the `src/main` table agrees on every legacy spelling and adds exactly `=<`, `=>`, `><`, `AND`, `OR` |
| `LegacyParser.Stack.constructor` | src/parser.kt:130-131 | a new `Stack` is empty |
| `LegacyParser.Stack.Push` | src/parser.kt:135 | push appends to the top |
| `LegacyParser.Stack.Peek` | src/parser.kt:144 | peek gives the top, and throws `EmptyStackException` on an empty stack |
| `LegacyParser.Stack.Pop` | src/parser.kt:181-182 | pop removes and returns the top, and throws `EmptyStackException` on an empty stack |
| `LegacyParser.PopHigher` | src/parser.kt:143-152 | the popping loop leaves on top an operator that does not outrank the new one |
| `LegacyParser.YardStep` | src/parser.kt:133-158 | a yard step succeeds exactly on numbers, operators with a binary spelling and `EndOfLine`, and otherwise gives that token's error |
| `LegacyParser.Collapse` | src/parser.kt:180-189 | collapsing consumes one operator per expression, throws exactly when operators run out, and never rejects binary operators |
| `LegacyParser.ReduceStep` | src/parser.kt:171-193 | a reduction step only throws `EmptyStackException`, and never rejects binary operators |
| `LegacyParser.ReduceFrom` | src/parser.kt:170-196 | the reduction only throws `EmptyStackException`, and never rejects binary operators |
| `LegacyParser.PopHigherOperators` | src/parser.kt:143-152 | the loop computes `PopHigher` on the two stacks |
| `LegacyParser.ShuntToken` | src/parser.kt:133-158 | one loop iteration computes `YardStep` on the two stacks |
| `LegacyParser.ParseShuntingYard` | src/parser.kt:129-163 | `parseShuntingYard` returns, or throws, as `ShuntingYard(tokens)` |
| `LegacyParser.CollapseStack` | src/parser.kt:180-189 | the loop computes `Collapse` and empties the expression stack |
| `LegacyParser.ReduceToken` | src/parser.kt:171-193 | one loop iteration computes `ReduceStep` |
| `LegacyParser.ParseReversePolishNotation` | src/parser.kt:165-197 | `parseReversePolishNotation` returns, or throws, as `Reduce` of the postfix list |
| `LegacyParser.PopHigherOutput` | src/parser.kt:143-152 | the loop moves exactly the outranking operators, top first, to the output |
| `LegacyParser.OperandsAppend` | src/parser.kt:129-163 | operands of a concatenation are the concatenation of operands |
| `LegacyParser.YardStepKeeps` | src/parser.kt:133-158 | a yard step adds exactly the token's own operand to the output |
| `LegacyParser.YardFromKeeps` | src/parser.kt:133-160 | the yard's output holds the input's operands in input order |
| `LegacyParser.PostfixKeeps` | src/parser.kt:129-163 | the postfix list has the same operands, in the same order, as the infix tokens |
| `LegacyParser.YardFromAccepts` | src/parser.kt:133-158 | the yard succeeds exactly when it accepts every remaining token |
| `LegacyParser.PostfixAccepts` | src/parser.kt:129-163 | the yard succeeds exactly when it accepts every token |
| `LegacyParser.PostfixFirstError` | src/parser.kt:133-158 | the yard reports the first token it does not accept |
| `LegacyParser.CollapseLeaves` | src/parser.kt:180-189 | collapsing puts the stacked expressions' leaves after the new leaf, top first |
| `LegacyParser.ReduceStepLeaves` | src/parser.kt:171-193 | a reduction step adds the token's operand to the leaves |
| `LegacyParser.ReduceFromLeaves` | src/parser.kt:165-197 | every leaf of the reduced tree comes from the postfix operands |
| `LegacyParser.ExpressionLeavesAreOperands` | src/parser.kt:129-197 | every leaf of a parsed expression is an operand of the input |
| `LegacyParser.ShuntingYardErrors` | src/parser.kt:129-197 | the parse is rejected exactly when some token is not accepted; it can otherwise only throw `EmptyStackException` |
| `LegacyParser.QuestionMarkIsPrint` | src/parser.kt:91-105 | `?` parses as `PRINT` |
| `LegacyParser.StringHeadIgnoresRest` | src/parser.kt:115-127 | `PRINT "text"` prints the text whatever follows |
| `LegacyParser.ParsedCommandShape` | src/parser.kt:91-127 | a parsed command is a `PRINT` keyword and either a string or an expression whose first leaf is the first number |
| `LegacyParser.ExpressionErrors` | src/parser.kt:115-127 | an expression is rejected exactly when empty, not led by a literal, or holding a token the yard does not accept |
| `LegacyParser.CommandErrors` | src/parser.kt:91-113 | a command is rejected exactly when it has no `PRINT` keyword or its expression is rejected, and then carries the `Print error` message |
| `LegacyParser.CommandThrows` | src/parser.kt:91-197 | a command throws only `EmptyStackException`, only for an accepted numeric expression |
| `LegacyParser.HigherFirstExample` | src/parser.kt:143-152 | `PRINT 2*3+4` parses as `(2*3)+4` |
| `LegacyParser.LeftoverOperatorsBottomFirst` | src/parser.kt:160 | as written, `PRINT 2+3*4` parses as `2*(3+4)`: leftover operators reach the output bottom first |
| `LegacyParser.MissingOperatorThrows` | src/parser.kt:180-182 | `PRINT 1+2 3` throws `EmptyStackException` |

## Left out

- `src/interpreter.kt`, the `main.kt` read-eval loops and the `AppleSoft.kt` user interface are not part of this model. They only wire the modelled parts to the console.
- The parser of the `core` generation is not part of this model. `CoreInterpreter` uses `MainParser`'s `Command` and `Expression`, and `CoreTokenizer` uses `MainOperators.GetBinop` as its operator table, because both are identical in what the modelled code touches.
- Console I/O is an `output` sequence of printed lines. `onPrint` is modelled as always set.
- `LOAD`, which reads a file, is not modelled.
- `Common.DigitsValue`: Kotlin's `toInt` is 32-bit, and the model's value is unbounded. Overflowing literals are not modelled.
- `MainInterpreter.ApplyBinary`: arithmetic is on unbounded integers. Kotlin's 32-bit wrap-around of `+`, `-` and `*` is not modelled.
- `CoreInterpreter.EvaluateBinary`: for the same reason, 32-bit wrap-around is not modelled.
- `MainInterpreter.IntegerComparisons`: holds only because integers are unbounded. The source compares by subtracting and testing the sign, so with 32-bit wrap-around `-2147483648 < 1` gives 0.
- `CoreTokenizer.NumberToken`: the number literal keeps its text. `toFloat` and floating-point values are not modelled.
- `Common.IsLetter`, `Common.IsDigit`, `Common.IsWhitespace`: the character classes are ASCII. Kotlin's `isLetter` and `isDigit` also accept other Unicode letters and digits.
- `MainInterpreter.ValueText`: error messages that embed a value use the data-class `toString` shape. Where the source prints an object's default `toString` (a class name and hash code), the model uses a fixed text.
- `MainInterpreter.PrintEffect`: the message for printing a unary expression is abbreviated. The source's message embeds the object's `toString`.
- Interpreters: `fuel` bounds nested execution and the RUN loop, and `OutOfFuel` stands for "has not ended within the bound". Non-termination is shown only where a lemma proves `OutOfFuel` for every bound (`CoreInterpreter.GoToRemNeverEnds`).
- `MainParser.ParseIfCommand`: an `IF` segment without `THEN` crashes in the source, because `subList(1, -1)` throws. The parser functions take this as a precondition, `ThenFollowsEveryIf`, instead of modelling the exception.
- `MainInterpreter.ExecLine`: the `src/main` interpreter has no branch for `ONERR`. A `when` without that branch does not compile for a sealed class, so the model requires every executed and stored command to be one the interpreter handles (`Handled`).
- The `unary` field of operator tokens: the `src/main` tokenizer's `Operator` has no `unary` field, but the `src/main` parser reads and sets one. The model adds the field, and the tokenizer always sets it to false.
- `LegacyParser.GetUnop` is defined in the source but never called. It is modelled, but nothing uses it.
- `MainParser.ParseToCommand`: its own contract states only that the original line is kept. What each branch produces is stated by the `...CommandShape` lemmas, `LineArgumentDefaults`, `FlatKeywordCommand` and `OtherKeywordsUnsupported`.
- `MainParser.ParseKeywordCommand`: its own contract, like `ParseToCommand`'s, states only that the original line is kept. What each keyword produces is stated by `IfCommandShape`, `OnErrCommandShape`, `FlatKeywordCommand`, `LineArgumentDefaults` and `OtherKeywordsUnsupported`.
- `MainParser.ParseIfCommand`: its own contract states only that the original line is kept. The condition, the consequent and the error text are stated by `IfCommandShape`.
