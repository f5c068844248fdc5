/** The oldest tokenizer, `src/tokenizer.kt`: the same cursor design as the
    later generations, with a two-word keyword set, numbers as digit runs,
    and an operator reader that swallows every following operator
    character. */
module LegacyTokenizer {
  import opened Common

  /** `Illegal` carries no text in this generation. */
  datatype Token =
    | Identifier(value: string)
    | StringLiteral(value: string)
    | NumberLiteral(number: int)
    | Keyword(value: string)
    | Operator(value: string)
    | EndOfLine
    | Illegal

  /** What a reader returns: the token and the index just after it. */
  datatype Scanned = Scanned(token: Token, next: int)

  const Keywords: set<string> := {"PRINT", "?"}

  const Operators: set<string> :=
    {"+", "-", "*", "/", "!", "&", "|", "<", ">", "<>", "MOD", "(", ")"}

  /** The tokens after which `tokenize_line` stops. */
  predicate IsFinal(t: Token) { t.EndOfLine? || t.Illegal? }

  predicate IsIdentifierChar(c: char) { IsLetter(c) || IsDigit(c) || c == '_' }

  predicate IsNotQuote(c: char) { c != Quote }

  /** A character that is on its own a member of `Operators`. */
  predicate IsOperatorChar(c: char) { [c] in Operators }

  // ---------------------------------------------------------------------
  // What each reader does, as functions of the line and the start index.
  // Each returns the token and the index after it.
  // ---------------------------------------------------------------------

  /** Where `skipWhitespace` leaves the cursor. */
  function WhitespaceEnd(s: string, i: int): (j: int)
    requires 0 <= i <= |s| + 1
    ensures i <= j <= |s| + 1
    ensures i <= |s| ==> j <= |s|
    ensures j < |s| ==> !IsWhitespace(s[j])
    ensures forall k :: i <= k < j ==> IsWhitespace(s[k])
  {
    if i < |s| then Span(s, i, IsWhitespace) else i
  }

  /** `readNumber`: the maximal digit run and its decimal value. */
  function NumberToken(s: string, i: nat): (r: Scanned)
    requires i < |s| && IsDigit(s[i])
    ensures i < r.next <= |s| && AllDigits(s[i..(r.next)])
    ensures r.next == |s| || !IsDigit(s[r.next])
    ensures r.token == NumberLiteral(DigitsValue(s[i..(r.next)]))
  {
    var j := Span(s, i, IsDigit);
    Scanned(NumberLiteral(DigitsValue(s[i..j])), j)
  }

  /** `readOperator`: the first character and every operator character
      after it, whatever text they make together. */
  function OperatorToken(s: string, i: nat): (r: Scanned)
    requires i < |s|
    ensures i < r.next <= |s|
    ensures r.token == Operator(s[i..(r.next)])
    ensures forall k :: i < k < r.next ==> IsOperatorChar(s[k])
    ensures r.next == |s| || !IsOperatorChar(s[r.next])
  {
    var j := Span(s, i + 1, IsOperatorChar);
    Scanned(Operator(s[i..j]), j)
  }

  /** How `readIdentifier` classifies a word. */
  function ClassifyWord(word: string): (t: Token)
    ensures t.Keyword? <==> word in Keywords
    ensures t.Operator? <==> word !in Keywords && word in Operators
    ensures t.Identifier? <==> word !in Keywords && word !in Operators
    ensures (t.Keyword? || t.Operator? || t.Identifier?) && t.value == word
  {
    if word in Keywords then Keyword(word)
    else if word in Operators then Operator(word)
    else Identifier(word)
  }

  /** `readIdentifier`: a letter followed by letters, digits and '_'. */
  function IdentifierToken(s: string, i: nat): (r: Scanned)
    requires i < |s| && IsLetter(s[i])
    ensures i < r.next <= |s|
    ensures r.next == |s| || !IsIdentifierChar(s[r.next])
    ensures forall k :: i <= k < r.next ==> IsIdentifierChar(s[k])
    ensures r.token == ClassifyWord(s[i..(r.next)])
  {
    var j := Span(s, i, IsIdentifierChar);
    Scanned(ClassifyWord(s[i..j]), j)
  }

  /** `readLiteral`, started just after the opening quote: the text up to
      the closing quote (or the end of the line), and the index after the
      closing quote. */
  function LiteralToken(s: string, i: nat): (r: Scanned)
    requires i <= |s|
    ensures i < r.next <= |s| + 1
    ensures r.token == StringLiteral(s[i..(r.next - 1)])
    ensures forall k :: i <= k < r.next - 1 ==> s[k] != Quote
    ensures r.next - 1 == |s| || s[r.next - 1] == Quote
  {
    var j := Span(s, i, IsNotQuote);
    Scanned(StringLiteral(s[i..j]), j + 1)
  }

  /** `nextToken`: skip white space, then dispatch on the next character.
      A character no branch accepts gives `Illegal` without advancing. */
  function Scan(s: string, i: int): (r: Scanned)
    requires 0 <= i <= |s| + 1
    ensures i <= r.next <= |s| + 1
    ensures r.token.EndOfLine? <==> WhitespaceEnd(s, i) >= |s|
    ensures !IsFinal(r.token) ==> i < r.next
  {
    var p := WhitespaceEnd(s, i);
    if p >= |s| then Scanned(EndOfLine, p)
    else if s[p] == Quote then LiteralToken(s, p + 1)
    else if IsLetter(s[p]) then IdentifierToken(s, p)
    else if IsDigit(s[p]) then NumberToken(s, p)
    else if IsOperatorChar(s[p]) then OperatorToken(s, p)
    else Scanned(Illegal, p)
  }

  /** The tokens `tokenize_line` collects from index `i` on: up to and
      including the first final token. */
  function TokensFrom(s: string, i: int): (ts: seq<Token>)
    requires 0 <= i <= |s| + 1
    ensures |ts| > 0 && IsFinal(ts[|ts| - 1])
    ensures forall k :: 0 <= k < |ts| - 1 ==> !IsFinal(ts[k])
    decreases |s| + 1 - i
  {
    var t, j := Scan(s, i).token, Scan(s, i).next;
    if IsFinal(t) then [t] else [t] + TokensFrom(s, j)
  }

  /** `tokenizeLine`'s loop invariant carried over one more token. */
  lemma CollectStep(s: string, done: seq<Token>, i: int)
    requires 0 <= i <= |s| + 1
    ensures var t, j := Scan(s, i).token, Scan(s, i).next;
      if IsFinal(t) then done + TokensFrom(s, i) == done + [t]
      else done + TokensFrom(s, i) == (done + [t]) + TokensFrom(s, j)
  {
    var t, j := Scan(s, i).token, Scan(s, i).next;
    if !IsFinal(t) {
      AppendAssociates(done, [t], TokensFrom(s, j));
    }
  }

  // ---------------------------------------------------------------------
  // The tokenizer object
  // ---------------------------------------------------------------------

  class Tokenizer {
    const input: string
    var index: int

    /** The cursor never passes one beyond the end (the closing-quote skip
        of `readLiteral` can step past the last character). */
    predicate Valid()
      reads this
    {
      0 <= index <= |input| + 1
    }

    constructor (input: string)
      ensures this.input == input && index == 0 && Valid()
    {
      this.input := input;
      index := 0;
    }

    method NextToken() returns (t: Token)
      requires Valid()
      modifies this
      ensures Valid()
      ensures Scanned(t, index) == Scan(input, old(index))
    {
      SkipWhitespace();
      if index >= |input| {
        t := EndOfLine;
      } else {
        var c := input[index];
        if c == Quote {
          index := index + 1;
          t := ReadLiteral();
        } else if IsLetter(c) {
          t := ReadIdentifier();
        } else if IsDigit(c) {
          t := ReadNumber();
        } else if IsOperatorChar(c) {
          t := ReadOperator();
        } else {
          t := Illegal;
        }
      }
    }

    method SkipWhitespace()
      requires Valid()
      modifies this
      ensures Valid()
      ensures index == WhitespaceEnd(input, old(index))
    {
      while true
        invariant old(index) <= index <= |input| + 1
        invariant WhitespaceEnd(input, index) == WhitespaceEnd(input, old(index))
        decreases |input| + 1 - index
      {
        if index < |input| && IsWhitespace(input[index]) {
          index := index + 1;
        } else {
          break;
        }
      }
    }

    method ReadNumber() returns (t: Token)
      requires 0 <= index < |input| && IsDigit(input[index])
      modifies this
      ensures Valid()
      ensures Scanned(t, index) == NumberToken(input, old(index))
    {
      var number := [input[index]];
      index := index + 1;
      while index < |input| && IsDigit(input[index])
        invariant old(index) < index <= Span(input, old(index), IsDigit)
        invariant Span(input, index, IsDigit) == Span(input, old(index), IsDigit)
        invariant number == input[old(index)..index]
      {
        number := number + [input[index]];
        index := index + 1;
      }
      t := NumberLiteral(DigitsValue(number));
    }

    method ReadOperator() returns (t: Token)
      requires 0 <= index < |input|
      modifies this
      ensures Valid()
      ensures Scanned(t, index) == OperatorToken(input, old(index))
    {
      var operator := [input[index]];
      index := index + 1;
      while index < |input| && IsOperatorChar(input[index])
        invariant old(index) < index <= |input|
        invariant Span(input, index, IsOperatorChar) == Span(input, old(index) + 1, IsOperatorChar)
        invariant operator == input[old(index)..index]
      {
        operator := operator + [input[index]];
        index := index + 1;
      }
      t := Operator(operator);
    }

    method ReadIdentifier() returns (t: Token)
      requires 0 <= index < |input| && IsLetter(input[index])
      modifies this
      ensures Valid()
      ensures Scanned(t, index) == IdentifierToken(input, old(index))
    {
      var identifier := [input[index]];
      index := index + 1;
      while index < |input| && IsIdentifierChar(input[index])
        invariant old(index) < index <= |input|
        invariant Span(input, index, IsIdentifierChar) == Span(input, old(index), IsIdentifierChar)
        invariant identifier == input[old(index)..index]
      {
        identifier := identifier + [input[index]];
        index := index + 1;
      }
      if identifier in Keywords {
        t := Keyword(identifier);
      } else if identifier in Operators {
        t := Operator(identifier);
      } else {
        t := Identifier(identifier);
      }
    }

    method ReadLiteral() returns (t: Token)
      requires 0 <= index <= |input|
      modifies this
      ensures Valid()
      ensures Scanned(t, index) == LiteralToken(input, old(index))
    {
      var lit := "";
      while index < |input| && input[index] != Quote
        invariant old(index) <= index <= |input|
        invariant Span(input, index, IsNotQuote) == Span(input, old(index), IsNotQuote)
        invariant lit == input[old(index)..index]
      {
        assert IsNotQuote(input[index]);
        lit := lit + [input[index]];
        index := index + 1;
      }
      index := index + 1;
      t := StringLiteral(lit);
    }
  }

  /** `tokenize_line`: read tokens until the first `EndOfLine` or `Illegal`. */
  method TokenizeLine(line: string) returns (r: seq<Token>)
    ensures r == TokensFrom(line, 0)
  {
    var tokenizer := new Tokenizer(line);
    var tokens: seq<Token> := [];
    while true
      invariant tokenizer.Valid() && tokenizer.input == line
      invariant tokens + TokensFrom(line, tokenizer.index) == TokensFrom(line, 0)
      decreases |line| + 1 - tokenizer.index
    {
      ghost var before := tokenizer.index;
      CollectStep(line, tokens, before);
      var tok := tokenizer.NextToken();
      tokens := tokens + [tok];
      if IsFinal(tok) {
        break;
      }
    }
    r := tokens;
  }

  // ---------------------------------------------------------------------
  // Properties
  // ---------------------------------------------------------------------

  /** `TokensFrom` after a token that does not end the line. */
  lemma TokensFromNext(s: string, i: int, t: Token, j: int)
    requires 0 <= i <= |s| + 1 && Scan(s, i) == Scanned(t, j) && !IsFinal(t)
    ensures 0 <= j <= |s| + 1 && TokensFrom(s, i) == [t] + TokensFrom(s, j)
  {
  }

  /** A final first token is the whole of `TokensFrom`. */
  lemma FinalFirst(s: string, i: int, t: Token, j: int)
    requires 0 <= i <= |s| + 1 && Scan(s, i) == Scanned(t, j) && IsFinal(t)
    ensures TokensFrom(s, i) == [t]
  {
  }

  /** Past the last character there is only the end of the line. */
  lemma AtEnd(s: string, i: int)
    requires |s| <= i <= |s| + 1
    ensures TokensFrom(s, i) == [EndOfLine]
  {
    assert Scan(s, i).token == EndOfLine;
  }

  /** A token that reaches the end of the line is followed only by the
      end of the line. */
  lemma LastToken(s: string, i: int, t: Token, j: int)
    requires 0 <= i <= |s| + 1 && Scan(s, i) == Scanned(t, j) && !IsFinal(t) && |s| <= j
    ensures TokensFrom(s, i) == [t, EndOfLine]
  {
    TokensFromNext(s, i, t, j);
    AtEnd(s, j);
    PairAppend(t, EndOfLine);
  }

  /** The text `PRINT` writes for a natural number tokenizes back to that
      number. */
  lemma NumberRoundTrip(n: nat)
    ensures TokensFrom(NatToString(n), 0) == [NumberLiteral(n), EndOfLine]
  {
    NumberScan(n);
    LastToken(NatToString(n), 0, NumberLiteral(n), |NatToString(n)|);
  }

  lemma NumberScan(n: nat)
    ensures Scan(NatToString(n), 0) == Scanned(NumberLiteral(n), |NatToString(n)|)
  {
    var s := NatToString(n);
    assert WhitespaceEnd(s, 0) == 0;
    assert Span(s, 0, IsDigit) == |s|;
    assert s[0..|s|] == s;
    DigitsOfNatToString(n);
  }

  /** A run of non-quotes ended by a quote is exactly the span. */
  lemma {:induction false} SpanOver(s: string, i: nat, j: nat)
    requires i <= j < |s| && s[j] == Quote
    requires forall k :: i <= k < j ==> s[k] != Quote
    ensures Span(s, i, IsNotQuote) == j
    decreases j - i
  {
    if i < j {
      SpanOver(s, i + 1, j);
    }
  }

  lemma LiteralScan(s: string, t: string)
    requires forall k :: 0 <= k < |t| ==> t[k] != Quote
    requires s == [Quote] + t + [Quote]
    ensures Scan(s, 0) == Scanned(StringLiteral(t), |s|)
  {
    assert s[1..|t| + 1] == t;
    SpanOver(s, 1, |t| + 1);
    assert WhitespaceEnd(s, 0) == 0;
  }

  /** A quoted text without quotes inside tokenizes back to that text. */
  lemma LiteralRoundTrip(s: string, t: string)
    requires forall k :: 0 <= k < |t| ==> t[k] != Quote
    requires s == [Quote] + t + [Quote]
    ensures TokensFrom(s, 0) == [StringLiteral(t), EndOfLine]
  {
    LiteralScan(s, t);
    LastToken(s, 0, StringLiteral(t), |s|);
  }

  /** An opening quote with no closing quote takes the rest of the line as
      the literal, after which the line ends. */
  lemma UnterminatedLiteral(s: string, i: nat)
    requires i < |s| && s[i] == Quote && WhitespaceEnd(s, i) == i
    requires forall k :: i < k < |s| ==> s[k] != Quote
    ensures TokensFrom(s, i) == [StringLiteral(s[i + 1..]), EndOfLine]
  {
    UnterminatedScan(s, i);
    LastToken(s, i, StringLiteral(s[i + 1..]), |s| + 1);
  }

  lemma UnterminatedScan(s: string, i: nat)
    requires i < |s| && s[i] == Quote && WhitespaceEnd(s, i) == i
    requires forall k :: i < k < |s| ==> s[k] != Quote
    ensures Scan(s, i) == Scanned(StringLiteral(s[i + 1..]), |s| + 1)
  {
    var j := Span(s, i + 1, IsNotQuote);
    assert j == |s|;
    assert s[i + 1..j] == s[i + 1..];
  }

  /** Every character of a scanned operator token is an operator character
      on its own, and the token extends as far as such characters go,
      whether or not the text names an operator. */
  lemma OperatorTokensAreGreedy(s: string, i: nat)
    requires i < |s| && WhitespaceEnd(s, i) == i && IsOperatorChar(s[i])
    ensures Scan(s, i).token.Operator?
    ensures var t, j := Scan(s, i).token, Scan(s, i).next;
      t.value == s[i..j] && (forall k :: 0 <= k < |t.value| ==> IsOperatorChar(t.value[k]))
      && (j == |s| || !IsOperatorChar(s[j]))
  {
    assert !IsLetter(s[i]) && !IsDigit(s[i]);
    var t, j := Scan(s, i).token, Scan(s, i).next;
    assert Scanned(t, j) == OperatorToken(s, i);
    forall k | 0 <= k < |t.value|
      ensures IsOperatorChar(t.value[k])
    {
      assert t.value[k] == s[i + k];
    }
  }

  /** `(-` is one token although it names no operator, and `<>` is one
      token. */
  lemma GreedyExamples()
    ensures TokensFrom("(-", 0) == [Operator("(-"), EndOfLine]
    ensures TokensFrom("<>", 0) == [Operator("<>"), EndOfLine]
  {
    PairScan("(-");
    LastToken("(-", 0, Operator("(-"), 2);
    PairScan("<>");
    LastToken("<>", 0, Operator("<>"), 2);
  }

  lemma PairScan(s: string)
    requires |s| == 2 && IsOperatorChar(s[0]) && IsOperatorChar(s[1])
    requires !IsWhitespace(s[0]) && !IsLetter(s[0]) && !IsDigit(s[0]) && s[0] != Quote
    ensures Scan(s, 0) == Scanned(Operator(s), 2)
  {
    assert WhitespaceEnd(s, 0) == 0;
    assert Span(s, 1, IsOperatorChar) == 2;
    assert s[0..2] == s;
  }

  /** `?` is in the keyword set, but no branch of `nextToken` reads it: it
      ends the line as `Illegal`, and so do `.` and `=`. */
  lemma StrayCharactersAreIllegal(s: string, i: nat)
    requires i < |s| && WhitespaceEnd(s, i) == i
    requires s[i] == '?' || s[i] == '.' || s[i] == '='
    ensures TokensFrom(s, i) == [Illegal]
  {
    assert !IsOperatorChar(s[i]);
    FinalFirst(s, i, Illegal, i);
  }

  /** Only `PRINT` is read as a keyword; `MOD` is an operator; any other
      word, `REM` included, is an identifier. */
  lemma WordClasses(s: string, i: nat)
    requires i < |s| && WhitespaceEnd(s, i) == i && IsLetter(s[i])
    ensures var t := Scan(s, i).token;
      (t.Keyword? <==> t.value == "PRINT") && (t.Operator? <==> t.value == "MOD")
      && (t.Keyword? || t.Operator? || t.Identifier?)
  {
    var t, j := Scan(s, i).token, Scan(s, i).next;
    assert Scanned(t, j) == IdentifierToken(s, i);
    assert IsLetter(t.value[0]);
    assert t.value != "?";
    if t.value in Operators {
      assert t.value == "MOD";
    }
  }
}
