/** The tokenizer of `core/src/com/bocker/applesoft/tokenizer.kt`: the same
    index-advancing cursor as the `src/main` generation, with a larger
    keyword table (`TH`, `ONERR`, `LOAD`), word operators (`AND`, `OR`,
    `NOT`), `$` in identifiers, and numbers that may carry a decimal point.

    The parser of this generation is not part of this model; the test
    `getBinop() !is Err` that `readOperator` applies is taken from the
    `src/main` operator table (`MainOperators.IsBinop`). */
module CoreTokenizer {
  import opened Common
  import opened MainOperators

  /** A `NumberLiteral` carries the scanned text: the conversion to a
      floating-point value (`toFloat`) is not modelled. */
  datatype Token =
    | Identifier(value: string)
    | StringLiteral(value: string)
    | NumberLiteral(value: string)
    | Keyword(value: string)
    | Operator(value: string, unary: bool)
    | Illegal(value: string)
    | EndOfLine

  /** What a reader returns: the token and the index just after it. */
  datatype Scanned = Scanned(token: Token, next: int)

  /** `keywords` (`LIST` appears twice in the source, which a set ignores). */
  const Keywords: set<string> :=
    {"PRINT", "?", "REM", "IF", "THEN", "TH", "LET", "LIST", "RUN",
     "GOTO", "GOSUB", "RETURN", "POP", "ONERR", "LOAD"}

  const Operators: set<string> :=
    {"+", "-", "*", "/", "&", "AND", "OR", "|", "<", ">", "MOD", "NOT",
     "(", ")", "=", ":", ";"}

  datatype TokenResult = TokenResult(original: string, tokens: seq<Token>)

  /** The tokens after which `tokenizeLine` stops. */
  predicate IsFinal(t: Token) { t.EndOfLine? || t.Illegal? }

  predicate IsIdentifierChar(c: char) { IsLetter(c) || IsDigit(c) || c == '_' || c == '$' }

  /** The characters `readNumber` takes after the first digit. */
  predicate IsNumberChar(c: char) { IsDigit(c) || c == '.' }

  predicate IsNotQuote(c: char) { c != Quote }

  /** A character that is on its own a member of `Operators`. */
  predicate IsOperatorChar(c: char) { [c] in Operators }

  /** A character that is on its own a member of `Keywords` (only `?`). */
  predicate IsKeywordChar(c: char) { [c] in Keywords }

  // ---------------------------------------------------------------------
  // What each reader does, as functions of the line and the start index.
  // Each returns the token and the index after it.
  // ---------------------------------------------------------------------

  /** Where `skipWhitespace` leaves the cursor. */
  function WhitespaceEnd(s: string, i: int): (j: int)
    requires 0 <= i <= |s| + 1
    ensures i <= j <= |s| + 1
    ensures i <= |s| ==> j <= |s|
    ensures j < |s| ==> !IsWhitespace(s[j])
    ensures forall k :: i <= k < j ==> IsWhitespace(s[k])
  {
    if i < |s| then Span(s, i, IsWhitespace) else i
  }

  /** How `readNumber` classifies the text it scanned: fewer than two
      decimal points make a number, more make the whole text illegal. */
  function ClassifyNumber(text: string): (t: Token)
    ensures t.NumberLiteral? <==> CountChar(text, '.') < 2
    ensures t.Illegal? <==> CountChar(text, '.') >= 2
    ensures t.value == text
  {
    if CountChar(text, '.') < 2 then NumberLiteral(text) else Illegal(text)
  }

  /** `readNumber`: a digit followed by the maximal run of digits and
      decimal points. */
  function NumberToken(s: string, i: nat): (r: Scanned)
    requires i < |s| && IsDigit(s[i])
    ensures i < r.next <= |s|
    ensures forall k :: i <= k < r.next ==> IsNumberChar(s[k])
    ensures r.next == |s| || !IsNumberChar(s[r.next])
    ensures r.token == ClassifyNumber(s[i..(r.next)])
  {
    var j := Span(s, i + 1, IsNumberChar);
    Scanned(ClassifyNumber(s[i..j]), j)
  }

  /** The end of the operator started at `start`, extended one character at
      a time while the next character is itself an operator and the
      extended text is still a binary operator. */
  function OperatorEnd(s: string, start: nat, i: nat): (j: nat)
    requires start < i <= |s|
    ensures i <= j <= |s|
    decreases |s| - i
  {
    if i < |s| && IsOperatorChar(s[i]) && IsBinop(s[start..i] + [s[i]])
    then OperatorEnd(s, start, i + 1)
    else i
  }

  /** The operator is the longest run of operator characters each of whose
      prefixes is a binary operator: every extension taken is one, and the
      next character does not give one. */
  lemma {:induction false} OperatorEndIsMaximal(s: string, start: nat, i: nat)
    requires start < i <= |s|
    ensures var j := OperatorEnd(s, start, i);
      && (forall k :: i <= k < j ==> IsOperatorChar(s[k]))
      && (forall k :: i < k <= j ==> IsBinop(s[start..k]))
      && (j == |s| || !IsOperatorChar(s[j]) || !IsBinop(s[start..j + 1]))
    decreases |s| - i
  {
    if i < |s| {
      SliceSnoc(s, start, i);
    }
    if i < |s| && IsOperatorChar(s[i]) && IsBinop(s[start..i + 1]) {
      OperatorEndIsMaximal(s, start, i + 1);
    }
  }

  /** `readOperator`. */
  function OperatorToken(s: string, i: nat): (r: Scanned)
    requires i < |s|
    ensures i < r.next <= |s|
    ensures r.token == Operator(s[i..(r.next)], false)
  {
    var j := OperatorEnd(s, i, i + 1);
    Scanned(Operator(s[i..j], false), j)
  }

  /** How `readIdentifier` classifies a word: a keyword first, then a word
      operator, and an identifier otherwise. */
  function ClassifyWord(word: string): (t: Token)
    ensures t.Keyword? <==> word in Keywords
    ensures t.Operator? <==> word !in Keywords && word in Operators
    ensures t.Identifier? <==> word !in Keywords && word !in Operators
    ensures t.Keyword? || t.Operator? || t.Identifier?
    ensures t.value == word && (t.Operator? ==> !t.unary)
  {
    if word in Keywords then Keyword(word)
    else if word in Operators then Operator(word, false)
    else Identifier(word)
  }

  /** `readIdentifier`: a letter followed by letters, digits, '_' and '$'. */
  function IdentifierToken(s: string, i: nat): (r: Scanned)
    requires i < |s| && IsLetter(s[i])
    ensures i < r.next <= |s|
    ensures r.next == |s| || !IsIdentifierChar(s[r.next])
    ensures forall k :: i <= k < r.next ==> IsIdentifierChar(s[k])
    ensures r.token == ClassifyWord(s[i..(r.next)])
  {
    var j := Span(s, i, IsIdentifierChar);
    Scanned(ClassifyWord(s[i..j]), j)
  }

  /** `readLiteral`, started just after the opening quote: the text up to
      the closing quote (or the end of the line), and the index after the
      closing quote. */
  function LiteralToken(s: string, i: nat): (r: Scanned)
    requires i <= |s|
    ensures i < r.next <= |s| + 1
    ensures r.token == StringLiteral(s[i..(r.next - 1)])
    ensures forall k :: i <= k < r.next - 1 ==> s[k] != Quote
    ensures r.next - 1 == |s| || s[r.next - 1] == Quote
  {
    var j := Span(s, i, IsNotQuote);
    Scanned(StringLiteral(s[i..j]), j + 1)
  }

  /** `nextToken`: skip white space, then dispatch on the next character. */
  function Scan(s: string, i: int): (r: Scanned)
    requires 0 <= i <= |s| + 1
    ensures i <= r.next <= |s| + 1
    ensures r.token.EndOfLine? <==> WhitespaceEnd(s, i) >= |s|
    ensures !IsFinal(r.token) ==> i < r.next
  {
    var p := WhitespaceEnd(s, i);
    if p >= |s| then Scanned(EndOfLine, p)
    else if s[p] == Quote then LiteralToken(s, p + 1)
    else if IsLetter(s[p]) then IdentifierToken(s, p)
    else if IsDigit(s[p]) then NumberToken(s, p)
    else if IsOperatorChar(s[p]) then OperatorToken(s, p)
    else if IsKeywordChar(s[p]) then Scanned(Keyword([s[p]]), p + 1)
    else Scanned(Illegal([s[p]]), p)
  }

  /** The tokens `tokenizeLine` collects from index `i` on: up to and
      including the first final token. */
  function TokensFrom(s: string, i: int): (ts: seq<Token>)
    requires 0 <= i <= |s| + 1
    ensures |ts| > 0 && IsFinal(ts[|ts| - 1])
    ensures forall k :: 0 <= k < |ts| - 1 ==> !IsFinal(ts[k])
    decreases |s| + 1 - i
  {
    var t, j := Scan(s, i).token, Scan(s, i).next;
    if IsFinal(t) then [t] else [t] + TokensFrom(s, j)
  }

  /** `tokenizeLine`'s loop invariant carried over one more token. */
  lemma CollectStep(s: string, done: seq<Token>, i: int)
    requires 0 <= i <= |s| + 1
    ensures var t, j := Scan(s, i).token, Scan(s, i).next;
      if IsFinal(t) then done + TokensFrom(s, i) == done + [t]
      else done + TokensFrom(s, i) == (done + [t]) + TokensFrom(s, j)
  {
    var t, j := Scan(s, i).token, Scan(s, i).next;
    if !IsFinal(t) {
      AppendAssociates(done, [t], TokensFrom(s, j));
    }
  }

  // ---------------------------------------------------------------------
  // The tokenizer object
  // ---------------------------------------------------------------------

  class Tokenizer {
    const input: string
    var index: int

    /** The cursor never passes one beyond the end (the closing-quote skip
        of `readLiteral` can step past the last character). */
    predicate Valid()
      reads this
    {
      0 <= index <= |input| + 1
    }

    constructor (input: string)
      ensures this.input == input && index == 0 && Valid()
    {
      this.input := input;
      index := 0;
    }

    method NextToken() returns (t: Token)
      requires Valid()
      modifies this
      ensures Valid()
      ensures Scanned(t, index) == Scan(input, old(index))
    {
      SkipWhitespace();
      if index >= |input| {
        t := EndOfLine;
      } else {
        var c := input[index];
        if c == Quote {
          index := index + 1;
          t := ReadLiteral();
        } else if IsLetter(c) {
          t := ReadIdentifier();
        } else if IsDigit(c) {
          t := ReadNumber();
        } else if IsOperatorChar(c) {
          t := ReadOperator();
        } else if IsKeywordChar(c) {
          index := index + 1;
          t := Keyword([c]);
        } else {
          // The cursor stays on an unclassified character; the token ends
          // the line anyway.
          t := Illegal([c]);
        }
      }
    }

    method SkipWhitespace()
      requires Valid()
      modifies this
      ensures Valid()
      ensures index == WhitespaceEnd(input, old(index))
    {
      while true
        invariant old(index) <= index <= |input| + 1
        invariant WhitespaceEnd(input, index) == WhitespaceEnd(input, old(index))
        decreases |input| + 1 - index
      {
        if index < |input| && IsWhitespace(input[index]) {
          index := index + 1;
        } else {
          break;
        }
      }
    }

    method ReadNumber() returns (t: Token)
      requires 0 <= index < |input| && IsDigit(input[index])
      modifies this
      ensures Valid()
      ensures Scanned(t, index) == NumberToken(input, old(index))
    {
      var number := [input[index]];
      index := index + 1;
      while index < |input| && IsNumberChar(input[index])
        invariant old(index) < index <= Span(input, old(index) + 1, IsNumberChar)
        invariant Span(input, index, IsNumberChar) == Span(input, old(index) + 1, IsNumberChar)
        invariant number == input[old(index)..index]
      {
        number := number + [input[index]];
        index := index + 1;
      }
      var dots := CountDots(number);
      if dots < 2 {
        t := NumberLiteral(number);
      } else {
        t := Illegal(number);
      }
    }

    method ReadOperator() returns (t: Token)
      requires 0 <= index < |input|
      modifies this
      ensures Valid()
      ensures Scanned(t, index) == OperatorToken(input, old(index))
    {
      var operator := [input[index]];
      index := index + 1;
      while index < |input| && IsOperatorChar(input[index]) && IsBinop(operator + [input[index]])
        invariant old(index) < index <= |input|
        invariant operator == input[old(index)..index]
        invariant OperatorEnd(input, old(index), index) == OperatorEnd(input, old(index), old(index) + 1)
      {
        operator := operator + [input[index]];
        index := index + 1;
      }
      t := Operator(operator, false);
    }

    method ReadIdentifier() returns (t: Token)
      requires 0 <= index < |input| && IsLetter(input[index])
      modifies this
      ensures Valid()
      ensures Scanned(t, index) == IdentifierToken(input, old(index))
    {
      var identifier := [input[index]];
      index := index + 1;
      while index < |input| && IsIdentifierChar(input[index])
        invariant old(index) < index <= |input|
        invariant Span(input, index, IsIdentifierChar) == Span(input, old(index), IsIdentifierChar)
        invariant identifier == input[old(index)..index]
      {
        identifier := identifier + [input[index]];
        index := index + 1;
      }
      if identifier in Keywords {
        t := Keyword(identifier);
      } else if identifier in Operators {
        t := Operator(identifier, false);
      } else {
        t := Identifier(identifier);
      }
    }

    method ReadLiteral() returns (t: Token)
      requires 0 <= index <= |input|
      modifies this
      ensures Valid()
      ensures Scanned(t, index) == LiteralToken(input, old(index))
    {
      var lit := "";
      while index < |input| && input[index] != Quote
        invariant old(index) <= index <= |input|
        invariant Span(input, index, IsNotQuote) == Span(input, old(index), IsNotQuote)
        invariant lit == input[old(index)..index]
      {
        assert IsNotQuote(input[index]);
        lit := lit + [input[index]];
        index := index + 1;
      }
      index := index + 1;
      t := StringLiteral(lit);
    }
  }

  /** `number.count { it == '.' }`. */
  method CountDots(text: string) returns (n: nat)
    ensures n == CountChar(text, '.')
  {
    n := 0;
    var i := |text|;
    assert text[..i] == text;
    while i > 0
      invariant 0 <= i <= |text|
      invariant n + CountChar(text[..i], '.') == CountChar(text, '.')
    {
      CountCharSnoc(text[..i - 1], text[i - 1], '.');
      assert text[..i - 1] + [text[i - 1]] == text[..i];
      if text[i - 1] == '.' {
        n := n + 1;
      }
      i := i - 1;
    }
  }

  /** Counting over a sequence extended at the back. */
  lemma {:induction false} CountCharSnoc(s: string, x: char, c: char)
    ensures CountChar(s + [x], c) == CountChar(s, c) + (if x == c then 1 else 0)
  {
    if s != [] {
      assert (s + [x])[1..] == s[1..] + [x];
      CountCharSnoc(s[1..], x, c);
    }
  }

  /** `tokenizeLine`: read tokens until the first `EndOfLine` or `Illegal`. */
  method TokenizeLine(line: string) returns (r: TokenResult)
    ensures r.original == line
    ensures r.tokens == TokensFrom(line, 0)
  {
    var tokenizer := new Tokenizer(line);
    var tokens: seq<Token> := [];
    while true
      invariant tokenizer.Valid() && tokenizer.input == line
      invariant tokens + TokensFrom(line, tokenizer.index) == TokensFrom(line, 0)
      decreases |line| + 1 - tokenizer.index
    {
      ghost var before := tokenizer.index;
      CollectStep(line, tokens, before);
      var tok := tokenizer.NextToken();
      tokens := tokens + [tok];
      if IsFinal(tok) {
        break;
      }
    }
    r := TokenResult(line, tokens);
  }

  // ---------------------------------------------------------------------
  // Properties
  // ---------------------------------------------------------------------

  /** A number text (a digit, then digits and points) with at most one
      point tokenizes to that number; with two or more points the whole
      text is one illegal token, which ends the line. */
  lemma NumberText(s: string)
    requires |s| > 0 && IsDigit(s[0])
    requires forall k :: 0 <= k < |s| ==> IsNumberChar(s[k])
    ensures CountChar(s, '.') < 2 ==> TokensFrom(s, 0) == [NumberLiteral(s), EndOfLine]
    ensures CountChar(s, '.') >= 2 ==> TokensFrom(s, 0) == [Illegal(s)]
  {
    NumberScan(s);
    if CountChar(s, '.') < 2 {
      LastToken(s, 0, NumberLiteral(s), |s|);
    } else {
      FinalFirst(s, 0, Illegal(s), |s|);
    }
  }

  lemma NumberScan(s: string)
    requires |s| > 0 && IsDigit(s[0])
    requires forall k :: 0 <= k < |s| ==> IsNumberChar(s[k])
    ensures Scan(s, 0) == Scanned(ClassifyNumber(s), |s|)
  {
    assert WhitespaceEnd(s, 0) == 0;
    assert Span(s, 1, IsNumberChar) == |s|;
    assert s[0..|s|] == s;
  }

  /** `1.5` is one number token, `1.2.3` one illegal token. */
  lemma DecimalPoints()
    ensures TokensFrom("1.5", 0) == [NumberLiteral("1.5"), EndOfLine]
    ensures TokensFrom("1.2.3", 0) == [Illegal("1.2.3")]
  {
    PointCounts();
    NumberText("1.5");
    NumberText("1.2.3");
  }

  lemma PointCounts()
    ensures CountChar("1.5", '.') == 1
    ensures CountChar("1.2.3", '.') == 2
  {
    assert "1.5"[1..] == ".5" && ".5"[1..] == "5" && "5"[1..] == "";
    assert "1.2.3"[1..] == ".2.3" && ".2.3"[1..] == "2.3";
    assert "2.3"[1..] == ".3" && ".3"[1..] == "3" && "3"[1..] == "";
  }

  /** A word that is neither a keyword nor a word operator tokenizes back to
      an identifier with the same text. */
  lemma IdentifierRoundTrip(w: string)
    requires |w| > 0 && IsLetter(w[0])
    requires forall k :: 0 <= k < |w| ==> IsIdentifierChar(w[k])
    requires w !in Keywords && w !in Operators
    ensures TokensFrom(w, 0) == [Identifier(w), EndOfLine]
  {
    IdentifierScan(w);
    LastToken(w, 0, Identifier(w), |w|);
  }

  lemma IdentifierScan(w: string)
    requires |w| > 0 && IsLetter(w[0])
    requires forall k :: 0 <= k < |w| ==> IsIdentifierChar(w[k])
    requires w !in Keywords && w !in Operators
    ensures Scan(w, 0) == Scanned(Identifier(w), |w|)
  {
    assert Span(w, 0, IsIdentifierChar) == |w|;
    assert w[0..|w|] == w;
    assert WhitespaceEnd(w, 0) == 0;
  }

  /** A token that reaches the end of the line is followed only by the
      end of the line. */
  lemma LastToken(s: string, i: int, t: Token, j: int)
    requires 0 <= i <= |s| + 1 && Scan(s, i) == Scanned(t, j) && !IsFinal(t) && |s| <= j
    ensures TokensFrom(s, i) == [t, EndOfLine]
  {
    TokensFromNext(s, i, t, j);
    AtEnd(s, j);
    PairAppend(t, EndOfLine);
  }

  /** `TokensFrom` after a token that does not end the line. */
  lemma TokensFromNext(s: string, i: int, t: Token, j: int)
    requires 0 <= i <= |s| + 1 && Scan(s, i) == Scanned(t, j) && !IsFinal(t)
    ensures 0 <= j <= |s| + 1 && TokensFrom(s, i) == [t] + TokensFrom(s, j)
  {
  }

  /** A final first token is the whole of `TokensFrom`. */
  lemma FinalFirst(s: string, i: int, t: Token, j: int)
    requires 0 <= i <= |s| + 1 && Scan(s, i) == Scanned(t, j) && IsFinal(t)
    ensures TokensFrom(s, i) == [t]
  {
  }

  /** Past the last character there is only the end of the line. */
  lemma AtEnd(s: string, i: int)
    requires |s| <= i <= |s| + 1
    ensures TokensFrom(s, i) == [EndOfLine]
  {
    assert Scan(s, i).token == EndOfLine;
  }

  /** A quoted text without quotes inside tokenizes back to a string
      literal with that text. */
  lemma LiteralRoundTrip(s: string, t: string)
    requires forall k :: 0 <= k < |t| ==> t[k] != Quote
    requires s == [Quote] + t + [Quote]
    ensures TokensFrom(s, 0) == [StringLiteral(t), EndOfLine]
  {
    LiteralScan(s, t);
    LastToken(s, 0, StringLiteral(t), |s|);
  }

  lemma LiteralScan(s: string, t: string)
    requires forall k :: 0 <= k < |t| ==> t[k] != Quote
    requires s == [Quote] + t + [Quote]
    ensures Scan(s, 0) == Scanned(StringLiteral(t), |s|)
  {
    assert s[1..|t| + 1] == t;
    SpanOver(s, 1, |t| + 1);
    assert WhitespaceEnd(s, 0) == 0;
  }

  /** A run of non-quotes ended by a quote is exactly the span. */
  lemma {:induction false} SpanOver(s: string, i: nat, j: nat)
    requires i <= j < |s| && s[j] == Quote
    requires forall k :: i <= k < j ==> s[k] != Quote
    ensures Span(s, i, IsNotQuote) == j
    decreases j - i
  {
    if i < j {
      SpanOver(s, i + 1, j);
    }
  }

  /** An opening quote with no closing quote takes the rest of the line as
      the literal, after which the line ends. */
  lemma UnterminatedLiteral(s: string, i: nat)
    requires i < |s| && s[i] == Quote && WhitespaceEnd(s, i) == i
    requires forall k :: i < k < |s| ==> s[k] != Quote
    ensures TokensFrom(s, i) == [StringLiteral(s[i + 1..]), EndOfLine]
  {
    UnterminatedScan(s, i);
    LastToken(s, i, StringLiteral(s[i + 1..]), |s| + 1);
  }

  lemma UnterminatedScan(s: string, i: nat)
    requires i < |s| && s[i] == Quote && WhitespaceEnd(s, i) == i
    requires forall k :: i < k < |s| ==> s[k] != Quote
    ensures Scan(s, i) == Scanned(StringLiteral(s[i + 1..]), |s| + 1)
  {
    var j := Span(s, i + 1, IsNotQuote);
    assert j == |s|;
    assert s[i + 1..j] == s[i + 1..];
  }

  /** A lone `?` is the PRINT shorthand keyword; a character no reader
      accepts is illegal and ends the line. */
  lemma QuestionMarkAndIllegal()
    ensures TokensFrom("?", 0) == [Keyword("?"), EndOfLine]
    ensures TokensFrom("#", 0) == [Illegal("#")]
  {
    assert WhitespaceEnd("?", 0) == 0 && !IsOperatorChar('?') && IsKeywordChar('?');
    assert Scan("?", 0) == Scanned(Keyword("?"), 1);
    LastToken("?", 0, Keyword("?"), 1);
    assert WhitespaceEnd("#", 0) == 0 && !IsOperatorChar('#') && !IsKeywordChar('#');
    FinalFirst("#", 0, Illegal("#"), 0);
  }

  /** Keywords take priority over word operators and word operators over
      identifiers: `THEN` and `ONERR` are keywords, `AND` and `NOT`
      operators, `X$` an identifier. */
  lemma WordPriority()
    ensures ClassifyWord("THEN") == Keyword("THEN")
    ensures ClassifyWord("ONERR") == Keyword("ONERR")
    ensures ClassifyWord("AND") == Operator("AND", false)
    ensures ClassifyWord("NOT") == Operator("NOT", false)
    ensures ClassifyWord("X$") == Identifier("X$")
  {
  }

  /** Operators are extended one character at a time while the extension is
      still a binary operator: `<=` is one token, while `(-` and `--`
      split. */
  lemma OperatorsExtendGreedily()
    ensures TokensFrom("<=", 0) == [Operator("<=", false), EndOfLine]
    ensures TokensFrom("(-", 0) == [Operator("(", false), Operator("-", false), EndOfLine]
    ensures TokensFrom("--", 0) == [Operator("-", false), Operator("-", false), EndOfLine]
  {
    PairScan("<=");
    LastToken("<=", 0, Operator("<=", false), 2);
    SplitPair("(-");
    SplitPair("--");
  }

  /** Two operator characters that make a binary operator are one token. */
  lemma PairScan(s: string)
    requires |s| == 2 && IsOperatorChar(s[0]) && IsOperatorChar(s[1]) && IsBinop(s)
    requires !IsWhitespace(s[0]) && !IsLetter(s[0]) && !IsDigit(s[0]) && s[0] != Quote
    ensures Scan(s, 0) == Scanned(Operator(s, false), 2)
  {
    assert s[0..1] + [s[1]] == s && s[0..2] == s;
    assert OperatorEnd(s, 0, 2) == 2;
    assert OperatorEnd(s, 0, 1) == 2;
  }

  lemma SplitPairFirst(s: string)
    requires |s| == 2 && IsOperatorChar(s[0]) && IsOperatorChar(s[1])
    requires !IsWhitespace(s[0]) && !IsLetter(s[0]) && !IsDigit(s[0]) && s[0] != Quote
    requires !IsBinop(s)
    ensures Scan(s, 0) == Scanned(Operator([s[0]], false), 1)
  {
    assert s[0..1] + [s[1]] == s;
    assert OperatorEnd(s, 0, 1) == 1;
    assert s[0..1] == [s[0]];
  }

  lemma SplitPairSecond(s: string)
    requires |s| == 2 && IsOperatorChar(s[1])
    requires !IsWhitespace(s[1]) && !IsLetter(s[1]) && !IsDigit(s[1]) && s[1] != Quote
    ensures Scan(s, 1) == Scanned(Operator([s[1]], false), 2)
  {
    assert OperatorEnd(s, 1, 2) == 2;
    assert WhitespaceEnd(s, 1) == 1;
    assert s[1..2] == [s[1]];
  }

  /** Two operator characters whose concatenation is no binary operator
      are two tokens. */
  lemma SplitPair(s: string)
    requires |s| == 2 && IsOperatorChar(s[0]) && IsOperatorChar(s[1])
    requires !IsWhitespace(s[0]) && !IsLetter(s[0]) && !IsDigit(s[0]) && s[0] != Quote
    requires !IsWhitespace(s[1]) && !IsLetter(s[1]) && !IsDigit(s[1]) && s[1] != Quote
    requires !IsBinop(s)
    ensures TokensFrom(s, 0) == [Operator([s[0]], false), Operator([s[1]], false), EndOfLine]
  {
    var a, b := Operator([s[0]], false), Operator([s[1]], false);
    SplitPairFirst(s);
    TokensFromNext(s, 0, a, 1);
    SplitPairSecond(s);
    LastToken(s, 1, b, 2);
    assert [a] + [b, EndOfLine] == [a, b, EndOfLine];
  }
}
