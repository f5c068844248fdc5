/** The tokenizer of `src/main/tokenizer.kt`: a cursor over one input line
    that produces tokens one at a time, and `tokenizeLine`, which collects
    them up to the first `EndOfLine` or `Illegal` token. */
module MainTokenizer {
  import opened Common
  import opened MainOperators

  /** `Operator` carries the `unary` flag that the parser of this generation
      reads and sets; the tokenizer always produces it as `false`. */
  datatype Token =
    | Identifier(value: string)
    | StringLiteral(value: string)
    | NumberLiteral(number: int)
    | Keyword(value: string)
    | Operator(value: string, unary: bool)
    | Illegal(value: string)
    | EndOfLine

  /** What a reader returns: the token and the index just after it. */
  datatype Scanned = Scanned(token: Token, next: int)

  const Keywords: set<string> :=
    {"PRINT", "?", "REM", "IF", "THEN", "LET", "LIST", "RUN", "GOTO", "GOSUB", "RETURN", "POP"}

  const Operators: set<string> :=
    {"+", "-", "*", "/", "!", "&", "|", "<", ">", "<>", "MOD", "(", ")", "=", ":", ";"}

  datatype TokenResult = TokenResult(original: string, tokens: seq<Token>)

  /** The text Kotlin's data-class `toString` gives a token, as it appears
      in error messages. */
  function TokenText(t: Token): string
  {
    match t
    case Identifier(v) => "Identifier(value=" + v + ")"
    case StringLiteral(v) => "StringLiteral(value=" + v + ")"
    case NumberLiteral(n) => "NumberLiteral(value=" + IntToString(n) + ")"
    case Keyword(v) => "Keyword(value=" + v + ")"
    case Operator(v, _) => "Operator(value=" + v + ")"
    case Illegal(v) => "Illegal(value=" + v + ")"
    case EndOfLine => "EndOfLine"
  }

  /** Kotlin's `toString` of a token list: `[a, b, c]`. */
  function TokenListText(ts: seq<Token>): string
  {
    "[" + JoinTokens(ts) + "]"
  }

  function JoinTokens(ts: seq<Token>): string
  {
    if ts == [] then ""
    else if |ts| == 1 then TokenText(ts[0])
    else TokenText(ts[0]) + ", " + JoinTokens(ts[1..])
  }

  /** The tokens after which `tokenizeLine` stops. */
  predicate IsFinal(t: Token) { t.EndOfLine? || t.Illegal? }

  predicate IsIdentifierChar(c: char) { IsLetter(c) || IsDigit(c) || c == '_' }

  predicate IsNotQuote(c: char) { c != Quote }

  /** A character that is on its own a member of `Operators`. */
  predicate IsOperatorChar(c: char) { [c] in Operators }

  /** A character that is on its own a member of `Keywords` (only `?`). */
  predicate IsKeywordChar(c: char) { [c] in Keywords }

  // ---------------------------------------------------------------------
  // What each reader does, as functions of the line and the start index.
  // Each returns the token and the index after it.
  // ---------------------------------------------------------------------

  /** Where `skipWhitespace` leaves the cursor. */
  function WhitespaceEnd(s: string, i: int): (j: int)
    requires 0 <= i <= |s| + 1
    ensures i <= j <= |s| + 1
    ensures i <= |s| ==> j <= |s|
    ensures j < |s| ==> !IsWhitespace(s[j])
    ensures forall k :: i <= k < j ==> IsWhitespace(s[k])
  {
    if i < |s| then Span(s, i, IsWhitespace) else i
  }

  /** `readNumber`: the maximal digit run and its decimal value. */
  function NumberToken(s: string, i: nat): (r: Scanned)
    requires i < |s| && IsDigit(s[i])
    ensures i < r.next <= |s| && AllDigits(s[i..(r.next)])
    ensures r.next == |s| || !IsDigit(s[r.next])
    ensures r.token == NumberLiteral(DigitsValue(s[i..(r.next)]))
  {
    var j := Span(s, i, IsDigit);
    Scanned(NumberLiteral(DigitsValue(s[i..j])), j)
  }

  /** The end of the operator started at `start`, extended one character at
      a time while the next character is itself an operator and the
      extended text is still a binary operator. */
  function OperatorEnd(s: string, start: nat, i: nat): (j: nat)
    requires start < i <= |s|
    ensures i <= j <= |s|
    decreases |s| - i
  {
    if i < |s| && IsOperatorChar(s[i]) && IsBinop(s[start..i] + [s[i]])
    then OperatorEnd(s, start, i + 1)
    else i
  }

  /** The operator is the longest run of operator characters each of whose
      prefixes is a binary operator: every extension taken is one, and the
      next character does not give one. */
  lemma {:induction false} OperatorEndIsMaximal(s: string, start: nat, i: nat)
    requires start < i <= |s|
    ensures var j := OperatorEnd(s, start, i);
      && (forall k :: i <= k < j ==> IsOperatorChar(s[k]))
      && (forall k :: i < k <= j ==> IsBinop(s[start..k]))
      && (j == |s| || !IsOperatorChar(s[j]) || !IsBinop(s[start..j + 1]))
    decreases |s| - i
  {
    if i < |s| {
      SliceSnoc(s, start, i);
    }
    if i < |s| && IsOperatorChar(s[i]) && IsBinop(s[start..i + 1]) {
      OperatorEndIsMaximal(s, start, i + 1);
    }
  }

  /** `readOperator`. */
  function OperatorToken(s: string, i: nat): (r: Scanned)
    requires i < |s|
    ensures i < r.next <= |s|
    ensures r.token == Operator(s[i..(r.next)], false)
  {
    var j := OperatorEnd(s, i, i + 1);
    Scanned(Operator(s[i..j], false), j)
  }

  /** How `readIdentifier` classifies a word. */
  function ClassifyWord(word: string): (t: Token)
    ensures t.Keyword? <==> word in Keywords
    ensures t.Operator? <==> word !in Keywords && word in Operators
    ensures t.Identifier? <==> word !in Keywords && word !in Operators
    ensures t.Keyword? || t.Operator? || t.Identifier?
    ensures t.value == word && (t.Operator? ==> !t.unary)
  {
    if word in Keywords then Keyword(word)
    else if word in Operators then Operator(word, false)
    else Identifier(word)
  }

  /** `readIdentifier`: a letter followed by letters, digits and '_'. */
  function IdentifierToken(s: string, i: nat): (r: Scanned)
    requires i < |s| && IsLetter(s[i])
    ensures i < r.next <= |s|
    ensures r.next == |s| || !IsIdentifierChar(s[r.next])
    ensures forall k :: i <= k < r.next ==> IsIdentifierChar(s[k])
    ensures r.token == ClassifyWord(s[i..(r.next)])
  {
    var j := Span(s, i, IsIdentifierChar);
    Scanned(ClassifyWord(s[i..j]), j)
  }

  /** `readLiteral`, started just after the opening quote: the text up to
      the closing quote (or the end of the line), and the index after the
      closing quote. */
  function LiteralToken(s: string, i: nat): (r: Scanned)
    requires i <= |s|
    ensures i < r.next <= |s| + 1
    ensures r.token == StringLiteral(s[i..(r.next - 1)])
    ensures forall k :: i <= k < r.next - 1 ==> s[k] != Quote
    ensures r.next - 1 == |s| || s[r.next - 1] == Quote
  {
    var j := Span(s, i, IsNotQuote);
    Scanned(StringLiteral(s[i..j]), j + 1)
  }

  /** `nextToken`: skip white space, then dispatch on the next character. */
  function Scan(s: string, i: int): (r: Scanned)
    requires 0 <= i <= |s| + 1
    ensures i <= r.next <= |s| + 1
    ensures r.token.EndOfLine? <==> WhitespaceEnd(s, i) >= |s|
    ensures !IsFinal(r.token) ==> i < r.next
  {
    var p := WhitespaceEnd(s, i);
    if p >= |s| then Scanned(EndOfLine, p)
    else if s[p] == Quote then LiteralToken(s, p + 1)
    else if IsLetter(s[p]) then IdentifierToken(s, p)
    else if IsDigit(s[p]) then NumberToken(s, p)
    else if IsOperatorChar(s[p]) then OperatorToken(s, p)
    else if IsKeywordChar(s[p]) then Scanned(Keyword([s[p]]), p + 1)
    else Scanned(Illegal([s[p]]), p)
  }

  /** The tokens `tokenizeLine` collects from index `i` on: up to and
      including the first final token. */
  function TokensFrom(s: string, i: int): (ts: seq<Token>)
    requires 0 <= i <= |s| + 1
    ensures |ts| > 0 && IsFinal(ts[|ts| - 1])
    ensures forall k :: 0 <= k < |ts| - 1 ==> !IsFinal(ts[k])
    decreases |s| + 1 - i
  {
    var t, j := Scan(s, i).token, Scan(s, i).next;
    if IsFinal(t) then [t] else [t] + TokensFrom(s, j)
  }

  /** `tokenizeLine`'s loop invariant carried over one more token. */
  lemma CollectStep(s: string, done: seq<Token>, i: int)
    requires 0 <= i <= |s| + 1
    ensures var t, j := Scan(s, i).token, Scan(s, i).next;
      if IsFinal(t) then done + TokensFrom(s, i) == done + [t]
      else done + TokensFrom(s, i) == (done + [t]) + TokensFrom(s, j)
  {
    var t, j := Scan(s, i).token, Scan(s, i).next;
    if !IsFinal(t) {
      AppendAssociates(done, [t], TokensFrom(s, j));
    }
  }

  // ---------------------------------------------------------------------
  // The tokenizer object
  // ---------------------------------------------------------------------

  class Tokenizer {
    const input: string
    var index: int

    /** The cursor never passes one beyond the end (the closing-quote skip
        of `readLiteral` can step past the last character). */
    predicate Valid()
      reads this
    {
      0 <= index <= |input| + 1
    }

    constructor (input: string)
      ensures this.input == input && index == 0 && Valid()
    {
      this.input := input;
      index := 0;
    }

    method NextToken() returns (t: Token)
      requires Valid()
      modifies this
      ensures Valid()
      ensures Scanned(t, index) == Scan(input, old(index))
    {
      SkipWhitespace();
      if index >= |input| {
        t := EndOfLine;
      } else {
        var c := input[index];
        if c == Quote {
          index := index + 1;
          t := ReadLiteral();
        } else if IsLetter(c) {
          t := ReadIdentifier();
        } else if IsDigit(c) {
          t := ReadNumber();
        } else if IsOperatorChar(c) {
          t := ReadOperator();
        } else if IsKeywordChar(c) {
          index := index + 1;
          t := Keyword([c]);
        } else {
          // The cursor stays on an illegal character; the token ends the
          // line anyway.
          t := Illegal([c]);
        }
      }
    }

    method SkipWhitespace()
      requires Valid()
      modifies this
      ensures Valid()
      ensures index == WhitespaceEnd(input, old(index))
    {
      while true
        invariant old(index) <= index <= |input| + 1
        invariant WhitespaceEnd(input, index) == WhitespaceEnd(input, old(index))
        decreases |input| + 1 - index
      {
        if index < |input| && IsWhitespace(input[index]) {
          index := index + 1;
        } else {
          break;
        }
      }
    }

    method ReadNumber() returns (t: Token)
      requires 0 <= index < |input| && IsDigit(input[index])
      modifies this
      ensures Valid()
      ensures Scanned(t, index) == NumberToken(input, old(index))
    {
      var number := [input[index]];
      index := index + 1;
      while index < |input| && IsDigit(input[index])
        invariant old(index) < index <= Span(input, old(index), IsDigit)
        invariant Span(input, index, IsDigit) == Span(input, old(index), IsDigit)
        invariant number == input[old(index)..index]
      {
        number := number + [input[index]];
        index := index + 1;
      }
      t := NumberLiteral(DigitsValue(number));
    }

    method ReadOperator() returns (t: Token)
      requires 0 <= index < |input|
      modifies this
      ensures Valid()
      ensures Scanned(t, index) == OperatorToken(input, old(index))
    {
      var operator := [input[index]];
      index := index + 1;
      while index < |input| && IsOperatorChar(input[index]) && IsBinop(operator + [input[index]])
        invariant old(index) < index <= |input|
        invariant operator == input[old(index)..index]
        invariant OperatorEnd(input, old(index), index) == OperatorEnd(input, old(index), old(index) + 1)
      {
        operator := operator + [input[index]];
        index := index + 1;
      }
      t := Operator(operator, false);
    }

    method ReadIdentifier() returns (t: Token)
      requires 0 <= index < |input| && IsLetter(input[index])
      modifies this
      ensures Valid()
      ensures Scanned(t, index) == IdentifierToken(input, old(index))
    {
      var identifier := [input[index]];
      index := index + 1;
      while index < |input| && IsIdentifierChar(input[index])
        invariant old(index) < index <= |input|
        invariant Span(input, index, IsIdentifierChar) == Span(input, old(index), IsIdentifierChar)
        invariant identifier == input[old(index)..index]
      {
        identifier := identifier + [input[index]];
        index := index + 1;
      }
      if identifier in Keywords {
        t := Keyword(identifier);
      } else if identifier in Operators {
        t := Operator(identifier, false);
      } else {
        t := Identifier(identifier);
      }
    }

    method ReadLiteral() returns (t: Token)
      requires 0 <= index <= |input|
      modifies this
      ensures Valid()
      ensures Scanned(t, index) == LiteralToken(input, old(index))
    {
      var lit := "";
      while index < |input| && input[index] != Quote
        invariant old(index) <= index <= |input|
        invariant Span(input, index, IsNotQuote) == Span(input, old(index), IsNotQuote)
        invariant lit == input[old(index)..index]
      {
        assert IsNotQuote(input[index]);
        lit := lit + [input[index]];
        index := index + 1;
      }
      index := index + 1;
      t := StringLiteral(lit);
    }
  }

  /** `tokenizeLine`: read tokens until the first `EndOfLine` or `Illegal`. */
  method TokenizeLine(line: string) returns (r: TokenResult)
    ensures r.original == line
    ensures r.tokens == TokensFrom(line, 0)
  {
    var tokenizer := new Tokenizer(line);
    var tokens: seq<Token> := [];
    while true
      invariant tokenizer.Valid() && tokenizer.input == line
      invariant tokens + TokensFrom(line, tokenizer.index) == TokensFrom(line, 0)
      decreases |line| + 1 - tokenizer.index
    {
      ghost var before := tokenizer.index;
      CollectStep(line, tokens, before);
      var tok := tokenizer.NextToken();
      tokens := tokens + [tok];
      if IsFinal(tok) {
        break;
      }
    }
    r := TokenResult(line, tokens);
  }

  // ---------------------------------------------------------------------
  // Properties
  // ---------------------------------------------------------------------

  /** `TokensFrom` after a token that does not end the line. */
  lemma TokensFromNext(s: string, i: int, t: Token, j: int)
    requires 0 <= i <= |s| + 1 && Scan(s, i) == Scanned(t, j) && !IsFinal(t)
    ensures 0 <= j <= |s| + 1 && TokensFrom(s, i) == [t] + TokensFrom(s, j)
  {
  }

  /** A final first token is the whole of `TokensFrom`. */
  lemma FinalFirst(s: string, i: int, t: Token, j: int)
    requires 0 <= i <= |s| + 1 && Scan(s, i) == Scanned(t, j) && IsFinal(t)
    ensures TokensFrom(s, i) == [t]
  {
  }

  /** Past the last character there is only the end of the line. */
  lemma AtEnd(s: string, i: int)
    requires |s| <= i <= |s| + 1
    ensures TokensFrom(s, i) == [EndOfLine]
  {
    assert Scan(s, i).token == EndOfLine;
  }

  /** A token that reaches the end of the line is followed only by the
      end of the line. */
  lemma LastToken(s: string, i: int, t: Token, j: int)
    requires 0 <= i <= |s| + 1 && Scan(s, i) == Scanned(t, j) && !IsFinal(t) && |s| <= j
    ensures TokensFrom(s, i) == [t, EndOfLine]
  {
    TokensFromNext(s, i, t, j);
    AtEnd(s, j);
    PairAppend(t, EndOfLine);
  }

  /** A '.' is no character any reader accepts. */
  lemma ScanDot(s: string, j: nat)
    requires j < |s| && s[j] == '.'
    ensures Scan(s, j) == Scanned(Illegal("."), j)
  {
    assert WhitespaceEnd(s, j) == j;
    assert [s[j]] == ".";
    assert !IsOperatorChar(s[j]) && !IsKeywordChar(s[j]);
  }

  /** A digit run followed by '.' is a number and then an illegal '.':
      the tokenizer has no decimal point, so `1.5` ends the line at '.'. */
  lemma DecimalPointIsIllegal(s: string, i: nat)
    requires i < |s| && IsDigit(s[i]) && WhitespaceEnd(s, i) == i
    requires Span(s, i, IsDigit) < |s| && s[Span(s, i, IsDigit)] == '.'
    ensures TokensFrom(s, i) == [NumberLiteral(DigitsValue(s[i..Span(s, i, IsDigit)])), Illegal(".")]
  {
    var j := Span(s, i, IsDigit);
    var n := NumberLiteral(DigitsValue(s[i..j]));
    assert Scan(s, i) == Scanned(n, j);
    TokensFromNext(s, i, n, j);
    ScanDot(s, j);
    FinalFirst(s, j, Illegal("."), j);
    PairAppend(n, Illegal("."));
  }

  /** An opening quote with no closing quote takes the rest of the line as
      the literal, after which the line ends. */
  lemma UnterminatedLiteral(s: string, i: nat)
    requires i < |s| && s[i] == Quote && WhitespaceEnd(s, i) == i
    requires forall k :: i < k < |s| ==> s[k] != Quote
    ensures TokensFrom(s, i) == [StringLiteral(s[i + 1..]), EndOfLine]
  {
    UnterminatedScan(s, i);
    LastToken(s, i, StringLiteral(s[i + 1..]), |s| + 1);
  }

  lemma UnterminatedScan(s: string, i: nat)
    requires i < |s| && s[i] == Quote && WhitespaceEnd(s, i) == i
    requires forall k :: i < k < |s| ==> s[k] != Quote
    ensures Scan(s, i) == Scanned(StringLiteral(s[i + 1..]), |s| + 1)
  {
    var j := Span(s, i + 1, IsNotQuote);
    assert j == |s|;
    assert s[i + 1..j] == s[i + 1..];
  }

  /** The text `PRINT` writes for a natural number tokenizes back to that
      number. */
  lemma NumberRoundTrip(n: nat)
    ensures TokensFrom(NatToString(n), 0) == [NumberLiteral(n), EndOfLine]
  {
    NumberScan(n);
    LastToken(NatToString(n), 0, NumberLiteral(n), |NatToString(n)|);
  }

  lemma NumberScan(n: nat)
    ensures Scan(NatToString(n), 0) == Scanned(NumberLiteral(n), |NatToString(n)|)
  {
    var s := NatToString(n);
    assert WhitespaceEnd(s, 0) == 0;
    assert Span(s, 0, IsDigit) == |s|;
    assert s[0..|s|] == s;
    DigitsOfNatToString(n);
  }

  /** Operators are read greedily, one character at a time while the
      extension is still a binary operator: `<>` and `=<` are single tokens,
      while `*-` splits, so `2*-3` reaches the parser as `*` then `-`. */
  lemma OperatorsExtendGreedily()
    ensures TokensFrom("<>", 0) == [Operator("<>", false), EndOfLine]
    ensures TokensFrom("=<", 0) == [Operator("=<", false), EndOfLine]
    ensures TokensFrom("*-", 0) == [Operator("*", false), Operator("-", false), EndOfLine]
  {
    PairScan("<>");
    LastToken("<>", 0, Operator("<>", false), 2);
    PairScan("=<");
    LastToken("=<", 0, Operator("=<", false), 2);
    SplitPair("*-");
  }

  /** Two operator characters that make a binary operator are one token. */
  lemma PairScan(s: string)
    requires |s| == 2 && IsOperatorChar(s[0]) && IsOperatorChar(s[1]) && IsBinop(s)
    requires !IsWhitespace(s[0]) && !IsLetter(s[0]) && !IsDigit(s[0]) && s[0] != Quote
    ensures Scan(s, 0) == Scanned(Operator(s, false), 2)
  {
    assert s[0..1] + [s[1]] == s && s[0..2] == s;
    assert OperatorEnd(s, 0, 2) == 2;
    assert OperatorEnd(s, 0, 1) == 2;
  }

  lemma SplitPairFirst(s: string)
    requires |s| == 2 && IsOperatorChar(s[0]) && IsOperatorChar(s[1])
    requires !IsWhitespace(s[0]) && !IsLetter(s[0]) && !IsDigit(s[0]) && s[0] != Quote
    requires !IsBinop(s)
    ensures Scan(s, 0) == Scanned(Operator([s[0]], false), 1)
  {
    assert s[0..1] + [s[1]] == s;
    assert OperatorEnd(s, 0, 1) == 1;
    assert s[0..1] == [s[0]];
  }

  lemma SplitPairSecond(s: string)
    requires |s| == 2 && IsOperatorChar(s[1])
    requires !IsWhitespace(s[1]) && !IsLetter(s[1]) && !IsDigit(s[1]) && s[1] != Quote
    ensures Scan(s, 1) == Scanned(Operator([s[1]], false), 2)
  {
    assert OperatorEnd(s, 1, 2) == 2;
    assert WhitespaceEnd(s, 1) == 1;
    assert s[1..2] == [s[1]];
  }

  /** Two operator characters whose concatenation is no binary operator
      are two tokens. */
  lemma SplitPair(s: string)
    requires |s| == 2 && IsOperatorChar(s[0]) && IsOperatorChar(s[1])
    requires !IsWhitespace(s[0]) && !IsLetter(s[0]) && !IsDigit(s[0]) && s[0] != Quote
    requires !IsWhitespace(s[1]) && !IsLetter(s[1]) && !IsDigit(s[1]) && s[1] != Quote
    requires !IsBinop(s)
    ensures TokensFrom(s, 0) == [Operator([s[0]], false), Operator([s[1]], false), EndOfLine]
  {
    var a, b := Operator([s[0]], false), Operator([s[1]], false);
    SplitPairFirst(s);
    TokensFromNext(s, 0, a, 1);
    SplitPairSecond(s);
    LastToken(s, 1, b, 2);
    assert [a] + [b, EndOfLine] == [a, b, EndOfLine];
  }
}
