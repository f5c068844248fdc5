/** Shared vocabulary of the three interpreter generations: the Kotlin
    `Result` type, Kotlin exceptions as values, character classes, and the
    small library routines (digit strings, `toString`, `sorted()`,
    `indexOf`, truncating division) that the tokenizers and evaluators use. */
module Common {

  /** The two-case result type shared by every generation (`Ok` / `Err`). */
  datatype Result<T> = Ok(value: T) | Err(error: string)

  /** Kotlin's nullable values. */
  datatype Option<T> = None | Some(value: T)

  /** How a Kotlin call ends: it returns a value, or it throws (a thrown
      exception skips every remaining statement of every caller).  The
      interpreters can also loop for ever (a GOTO cycle, a line that RUNs or
      GOSUBs itself); their models carry a bound on nested executions, and
      `OutOfFuel` says the bound ran out before the call ended. */
  datatype Outcome<T> = Returns(value: T) | Throws(exception: string) | OutOfFuel

  // ---------------------------------------------------------------------
  // Character classes (ASCII stand-ins for Kotlin's isLetter / isDigit /
  // isWhitespace)
  // ---------------------------------------------------------------------

  predicate IsLetter(c: char) { 'a' <= c <= 'z' || 'A' <= c <= 'Z' }

  predicate IsDigit(c: char) { '0' <= c <= '9' }

  /** Space, the control characters TAB..CR and the separators FS..US, which
      Java's `Character.isWhitespace` also accepts. */
  predicate IsWhitespace(c: char) {
    c == ' ' || '\t' <= c <= '\r' || '\U{1C}' <= c <= '\U{1F}'
  }

  /** The double quote that opens and closes a string literal. */
  const Quote: char := '\U{22}'

  /** The end of the maximal run of characters satisfying `p` that starts at
      `i`: every scanner loop of the form
      `while (index < input.length && p(input[index])) index++`. */
  function Span(s: string, i: nat, p: char -> bool): (j: nat)
    requires i <= |s|
    ensures i <= j <= |s|
    ensures forall k :: i <= k < j ==> p(s[k])
    ensures j == |s| || !p(s[j])
    decreases |s| - i
  {
    if i < |s| && p(s[i]) then Span(s, i + 1, p) else i
  }

  /** Number of occurrences of `c` in `s` (Kotlin `count { it == c }`). */
  function CountChar(s: string, c: char): (n: nat)
    ensures n <= |s|
    ensures n == 0 <==> (forall k :: 0 <= k < |s| ==> s[k] != c)
  {
    if s == [] then 0 else (if s[0] == c then 1 else 0) + CountChar(s[1..], c)
  }

  // ---------------------------------------------------------------------
  // Decimal digit strings: String.toInt and Int.toString
  // ---------------------------------------------------------------------

  predicate AllDigits(s: string) { forall k :: 0 <= k < |s| ==> IsDigit(s[k]) }

  function DigitValue(c: char): (d: nat)
    requires IsDigit(c)
    ensures d < 10
  {
    (c as int - '0' as int) as nat
  }

  function DigitChar(d: nat): (c: char)
    requires d < 10
    ensures IsDigit(c) && DigitValue(c) == d
  {
    ('0' as int + d) as char
  }

  /** The value of a decimal digit string (`String.toInt` on digits only;
      Kotlin's 32-bit overflow is not modelled). */
  function DigitsValue(s: string): (n: nat)
    requires AllDigits(s)
  {
    if s == [] then 0 else DigitsValue(s[..|s| - 1]) * 10 + DigitValue(s[|s| - 1])
  }

  /** Decimal rendering of a natural number, most significant digit first. */
  function NatToString(n: nat): (s: string)
    ensures |s| > 0 && AllDigits(s)
    decreases n
  {
    if n < 10 then [DigitChar(n)] else NatToString(n / 10) + [DigitChar(n % 10)]
  }

  /** `Int.toString()`: a leading '-' for negative numbers. */
  function IntToString(i: int): (s: string)
    ensures |s| > 0
    ensures (s[0] == '-') <==> i < 0
  {
    if i < 0 then "-" + NatToString(-i) else NatToString(i)
  }

  /** Printing a number and reading its digits back gives the number again:
      the text `PRINT` produces for `n` is tokenized as the literal `n`. */
  lemma {:induction false} DigitsOfNatToString(n: nat)
    ensures DigitsValue(NatToString(n)) == n
    decreases n
  {
    if n >= 10 {
      var s := NatToString(n / 10);
      DigitsOfNatToString(n / 10);
      assert (s + [DigitChar(n % 10)])[..|s|] == s;
    }
  }

  // ---------------------------------------------------------------------
  // Sorted key lists: `keys.sorted()` and `indexOf`
  // ---------------------------------------------------------------------

  predicate StrictlyIncreasing(s: seq<int>) {
    forall i, j :: 0 <= i < j < |s| ==> s[i] < s[j]
  }

  /** A non-empty set has an element (stated once, so that `:|` can pick one). */
  lemma HasElement(keys: set<int>)
    requires keys != {}
    ensures exists k :: k in keys
  {
    if forall k :: k !in keys {
      assert false;
    }
  }

  /** The least element of a non-empty set. */
  ghost function MinOf(keys: set<int>): (m: int)
    requires keys != {}
    ensures m in keys && forall x :: x in keys ==> m <= x
    decreases |keys|
  {
    HasElement(keys);
    var y :| y in keys;
    if keys == {y} then y
    else
      var m := MinOf(keys - {y});
      assert forall x :: x in keys ==> x == y || x in keys - {y};
      if y < m then y else m
  }

  /** The keys of a map in ascending order (Kotlin `keys.sorted()`). */
  ghost function SortedKeys(keys: set<int>): (s: seq<int>)
    ensures StrictlyIncreasing(s)
    ensures forall k :: k in s <==> k in keys
    ensures |s| == |keys|
    decreases |keys|
  {
    if keys == {} then []
    else
      var m := MinOf(keys);
      var rest := SortedKeys(keys - {m});
      ConsIncreasing(m, rest);
      [m] + rest
  }

  /** A key below every key of an increasing list can go in front of it. */
  lemma ConsIncreasing(m: int, rest: seq<int>)
    requires StrictlyIncreasing(rest) && forall k :: k in rest ==> m < k
    ensures StrictlyIncreasing([m] + rest)
  {
    var s := [m] + rest;
    forall i, j | 0 <= i < j < |s|
      ensures s[i] < s[j]
    {
      assert s[j] == rest[j - 1] && rest[j - 1] in rest;
      if i > 0 {
        assert s[i] == rest[i - 1];
      }
    }
  }

  /** Unfolds `SortedKeys` once at the least key. */
  lemma SortedKeysFirst(keys: set<int>, m: int)
    requires m in keys && forall x :: x in keys ==> m <= x
    ensures SortedKeys(keys) == [m] + SortedKeys(keys - {m})
  {
    assert m == MinOf(keys);
  }

  /** A sequence back to front (a stack emptied onto a list top first). */
  function Reversed<T>(s: seq<T>): (r: seq<T>)
    ensures |r| == |s|
    ensures forall k :: 0 <= k < |s| ==> r[k] == s[|s| - 1 - k]
  {
    if s == [] then [] else [s[|s| - 1]] + Reversed(s[..|s| - 1])
  }

  lemma AppendAssociates<T>(a: seq<T>, b: seq<T>, c: seq<T>)
    ensures a + (b + c) == (a + b) + c
  {
  }

  /** A slice extended by the element after it. */
  lemma SliceSnoc<T>(s: seq<T>, i: nat, j: nat)
    requires i <= j < |s|
    ensures s[i..j] + [s[j]] == s[i..j + 1]
  {
  }

  lemma PairAppend<T>(a: T, b: T)
    ensures [a] + [b] == [a, b]
  {
  }

  /** The sorting loop's invariant carried over one more key. */
  lemma SortStep(s: seq<int>, remaining: set<int>, m: int)
    requires m in remaining && forall x :: x in remaining ==> m <= x
    ensures s + SortedKeys(remaining) == (s + [m]) + SortedKeys(remaining - {m})
  {
    SortedKeysFirst(remaining, m);
    AppendAssociates(s, [m], SortedKeys(remaining - {m}));
  }

  /** The least element, found by a scan over the set. */
  method Least(keys: set<int>) returns (m: int)
    requires keys != {}
    ensures m in keys && forall x :: x in keys ==> m <= x
  {
    HasElement(keys);
    m :| m in keys;
    var rest := keys - {m};
    ghost var seen := {m};
    while rest != {}
      invariant seen + rest == keys && seen !! rest
      invariant m in seen && forall x :: x in seen ==> m <= x
      decreases |rest|
    {
      HasElement(rest);
      var y :| y in rest;
      if y < m {
        m := y;
      }
      rest := rest - {y};
      seen := seen + {y};
    }
  }

  /** Executable `sorted()`: repeatedly takes the least remaining key. */
  method SortKeys(keys: set<int>) returns (s: seq<int>)
    ensures s == SortedKeys(keys)
  {
    s := [];
    var remaining := keys;
    assert [] + SortedKeys(keys) == SortedKeys(keys);
    while remaining != {}
      invariant s + SortedKeys(remaining) == SortedKeys(keys)
      decreases |remaining|
    {
      var m := Least(remaining);
      SortStep(s, remaining, m);
      s := s + [m];
      remaining := remaining - {m};
    }
    assert s + [] == s;
  }

  /** Position of the first occurrence of `x`, or -1 (Kotlin `indexOf`). */
  function IndexOf(s: seq<int>, x: int): (i: int)
    ensures -1 <= i < |s|
    ensures i == -1 <==> x !in s
    ensures 0 <= i ==> s[i] == x && forall k :: 0 <= k < i ==> s[k] != x
  {
    if s == [] then -1
    else if s[0] == x then 0
    else
      var j := IndexOf(s[1..], x);
      if j == -1 then -1 else j + 1
  }

  /** Position of the first element satisfying `p`, or -1 (Kotlin
      `indexOfFirst`). */
  function IndexWhere<T>(s: seq<T>, p: T -> bool): (i: int)
    ensures -1 <= i < |s|
    ensures i == -1 <==> forall k :: 0 <= k < |s| ==> !p(s[k])
    ensures 0 <= i ==> p(s[i]) && forall k :: 0 <= k < i ==> !p(s[k])
  {
    if s == [] then -1
    else if p(s[0]) then 0
    else
      var j := IndexWhere(s[1..], p);
      if j == -1 then -1 else j + 1
  }

  // ---------------------------------------------------------------------
  // Kotlin `Int` division: truncation toward zero
  // ---------------------------------------------------------------------

  function Abs(a: int): nat { if a < 0 then -a else a }

  /** Kotlin `a / b`: the quotient rounded toward zero. */
  function TruncDiv(a: int, b: int): (q: int)
    requires b != 0
  {
    if (a < 0) != (b < 0) then -(Abs(a) / Abs(b)) else Abs(a) / Abs(b)
  }

  /** Kotlin `a % b`: the remainder of truncating division, which takes the
      sign of the dividend. */
  function TruncMod(a: int, b: int): (r: int)
    requires b != 0
    ensures Abs(r) < Abs(b)
    ensures r != 0 ==> ((r < 0) <==> (a < 0))
  {
    if a < 0 then -(Abs(a) % Abs(b)) else Abs(a) % Abs(b)
  }

  /** Kotlin's division law `(a / b) * b + a % b == a`. */
  lemma TruncDivMod(a: int, b: int)
    requires b != 0
    ensures TruncDiv(a, b) * b + TruncMod(a, b) == a
  {
    var q, r := Abs(a) / Abs(b), Abs(a) % Abs(b);
    assert q * Abs(b) + r == Abs(a);
    if a < 0 {
      assert TruncDiv(a, b) * b == -(q * Abs(b));
    } else if b < 0 {
      assert TruncDiv(a, b) * b == q * Abs(b);
    }
  }
}
