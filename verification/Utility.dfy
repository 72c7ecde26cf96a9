/** Integer literals as in C++14, and camelCase. */
module Utility {
  import opened Wrappers

  // ---------- Characters

  /** What `trim` removes: the white space and line terminators of section 12.2 and 12.3 of ECMA-262. */
  predicate IsWhite(c: char) {
    var n := c as int;
    || 9 <= n <= 13 || n == 32 || n == 0xA0 || n == 0x1680 || 0x2000 <= n <= 0x200A
    || n == 0x2028 || n == 0x2029 || n == 0x202F || n == 0x205F || n == 0x3000 || n == 0xFEFF
  }

  predicate AllWhite(s: string) {
    forall i | 0 <= i < |s| :: IsWhite(s[i])
  }

  /** Letters outside of ASCII have no lower case that a literal may contain, so they are left as they are. */
  function LowerChar(c: char): char {
    if 'A' <= c <= 'Z' then (c as int + 32) as char else c
  }

  function Lower(s: string): string {
    seq(|s|, i requires 0 <= i < |s| => LowerChar(s[i]))
  }

  function TrimLeft(s: string): string {
    if s != "" && IsWhite(s[0]) then TrimLeft(s[1..]) else s
  }

  function TrimRight(s: string): string {
    if s != "" && IsWhite(s[|s| - 1]) then TrimRight(s[..|s| - 1]) else s
  }

  function Trim(s: string): string {
    TrimRight(TrimLeft(s))
  }

  // ---------- Digits

  predicate IsDigit(c: char, base: nat) {
    || ('0' <= c <= '9' && c as int - '0' as int < base)
    || ('a' <= c <= 'f' && c as int - 'a' as int + 10 < base)
  }

  function DigitOf(c: char): nat
    requires IsDigit(c, 16)
  {
    if c <= '9' then c as int - '0' as int else c as int - 'a' as int + 10
  }

  predicate AllDigits(s: string, base: nat) {
    forall i | 0 <= i < |s| :: IsDigit(s[i], base)
  }

  /** The number that digits, most significant first, denote. */
  function ValueOf(s: string, base: nat): nat
    requires base <= 16 && AllDigits(s, base)
  {
    if s == "" then 0 else ValueOf(s[..|s| - 1], base) * base + DigitOf(s[|s| - 1])
  }

  // ---------- parseInteger

  predicate IsOctal(s: string) {
    s != "" && s[0] == '0' && AllDigits(s[1..], 8)
  }

  predicate IsHexadecimal(s: string) {
    |s| >= 3 && s[0] == '0' && s[1] == 'x' && AllDigits(s[2..], 16)
  }

  predicate IsBinary(s: string) {
    |s| >= 3 && s[0] == '0' && s[1] == 'b' && AllDigits(s[2..], 2)
  }

  predicate IsDecimal(s: string) {
    s != "" && '1' <= s[0] <= '9' && AllDigits(s[1..], 10)
  }

  /** The radix of a literal, and its digits without the prefix; the alternatives are tried in this order. */
  function GetRadix(maybeNumber: string): (r: Option<(nat, string)>)
    ensures r.Some? ==> 2 <= r.value.0 <= 16 && r.value.1 != "" && AllDigits(r.value.1, r.value.0)
  {
    var t := Trim(Lower(maybeNumber));
    if IsOctal(t) then Some((8, t))
    else if IsHexadecimal(t) then Some((16, t[2..]))
    else if IsBinary(t) then Some((2, t[2..]))
    else if IsDecimal(t) then Some((10, t))
    else None
  }

  /** A JavaScript number is exact below 2^53; above, it is some rounding of `n`. */
  datatype Number = Exact(n: nat) | Rounded(n: nat)

  const TWO_TO_THE_53: nat := 0x20_0000_0000_0000

  function ToNumber(n: nat): Number {
    if n < TWO_TO_THE_53 then Exact(n) else Rounded(n)
  }

  function ParseInteger(maybeInt: string): Result<Number, string> {
    match GetRadix(maybeInt)
    case None => Failure(maybeInt)
    case Some((radix, toParse)) => Success(ToNumber(ValueOf(toParse, radix)))
  }

  /** No string is a literal in two ways. */
  lemma LiteralsAreUnambiguous(s: string)
    ensures !(IsOctal(s) && IsHexadecimal(s)) && !(IsOctal(s) && IsBinary(s)) && !(IsOctal(s) && IsDecimal(s))
    ensures !(IsHexadecimal(s) && IsBinary(s)) && !(IsHexadecimal(s) && IsDecimal(s)) && !(IsBinary(s) && IsDecimal(s))
  {
  }

  /** So the order of the alternatives does not matter: each literal is read in its own radix, all else is an error. */
  lemma EachLiteralInItsRadix(s: string)
    ensures var t := Trim(Lower(s));
            && (IsOctal(t) ==> ParseInteger(s) == Success(ToNumber(ValueOf(t[1..], 8))))
            && (IsHexadecimal(t) ==> ParseInteger(s) == Success(ToNumber(ValueOf(t[2..], 16))))
            && (IsBinary(t) ==> ParseInteger(s) == Success(ToNumber(ValueOf(t[2..], 2))))
            && (IsDecimal(t) ==> ParseInteger(s) == Success(ToNumber(ValueOf(t, 10))))
            && (ParseInteger(s).Failure? <==> !IsOctal(t) && !IsHexadecimal(t) && !IsBinary(t) && !IsDecimal(t))
  {
    var t := Trim(Lower(s));
    LiteralsAreUnambiguous(t);
    if IsOctal(t) {
      ZeroInFront(t[1..], 8);
      assert t == "0" + t[1..];
    }
  }

  /** Leading zeros do not count. */
  lemma {:induction false} ZeroInFront(s: string, base: nat)
    requires 1 <= base <= 16 && AllDigits(s, base)
    ensures AllDigits("0" + s, base) && ValueOf("0" + s, base) == ValueOf(s, base)
  {
    if s == "" {
    } else {
      ZeroInFront(s[..|s| - 1], base);
      assert ("0" + s)[..|s|] == "0" + s[..|s| - 1];
    }
  }

  // ---------- Printing

  function DigitChar(d: nat): (c: char)
    requires d < 16
    ensures IsDigit(c, d + 1) && DigitOf(c) == d
  {
    if d < 10 then (d + '0' as int) as char else (d - 10 + 'a' as int) as char
  }

  function Print(n: nat, base: nat): string
    requires 2 <= base <= 16
    decreases n
  {
    if n < base then [DigitChar(n)] else Print(n / base, base) + [DigitChar(n % base)]
  }

  lemma AppendDigit(front: string, d: nat, base: nat)
    requires 2 <= base <= 16 && AllDigits(front, base) && d < base
    ensures AllDigits(front + [DigitChar(d)], base)
    ensures ValueOf(front + [DigitChar(d)], base) == ValueOf(front, base) * base + d
  {
  }

  lemma {:induction false} PrintDenotes(n: nat, base: nat)
    requires 2 <= base <= 16
    ensures Print(n, base) != "" && AllDigits(Print(n, base), base) && ValueOf(Print(n, base), base) == n
    ensures n > 0 ==> Print(n, base)[0] != '0'
    decreases n
  {
    if n < base {
      AppendDigit("", n, base);
      assert "" + [DigitChar(n)] == Print(n, base);
    } else {
      QuotientIsSmaller(n, base);
      PrintDenotes(n / base, base);
      AppendDigit(Print(n / base, base), n % base, base);
    }
  }

  lemma QuotientIsSmaller(n: nat, base: nat)
    requires 2 <= base <= n
    ensures 0 < n / base < n && n == n / base * base + n % base
  {
  }

  predicate IsRadix(base: nat) {
    base == 2 || base == 8 || base == 10 || base == 16
  }

  /** `n` as an integer literal: 0b101, 0644, 15, 0x20. */
  function Literal(n: nat, base: nat): string
    requires IsRadix(base)
  {
    (if base == 2 then "0b" else if base == 8 then "0" else if base == 16 then "0x" else "") + Print(n, base)
  }

  /** A printed literal belongs to its radix, and its digits denote what was printed. */
  lemma LiteralDenotes(n: nat, base: nat)
    requires IsRadix(base)
    ensures var t := Literal(n, base);
            && (base == 2 ==> IsBinary(t) && ValueOf(t[2..], 2) == n)
            && (base == 8 ==> IsOctal(t) && ValueOf(t[1..], 8) == n)
            && (base == 16 ==> IsHexadecimal(t) && ValueOf(t[2..], 16) == n)
            && (base == 10 && n > 0 ==> IsDecimal(t) && ValueOf(t, 10) == n)
            && (base == 10 && n == 0 ==> IsOctal(t) && ValueOf(t[1..], 8) == n)
  {
    PrintDenotes(n, base);
    var t, p := Literal(n, base), Print(n, base);
    if base == 10 {
      assert t == p;
      assert n == 0 ==> t[1..] == "";
    } else {
      assert t[(if base == 8 then 1 else 2)..] == p;
    }
  }

  /** Parsing inverts printing in every radix, whatever the letters' case and the white space around the literal. */
  lemma ParseInvertsLiteral(n: nat, base: nat, before: string, literal: string, after: string)
    requires n < 9007199254740992 && IsRadix(base)
    requires AllWhite(before) && AllWhite(after) && SameButForCase(literal, Literal(n, base))
    ensures ParseInteger(before + literal + after) == Success(Exact(n))
  {
    LiteralDenotes(n, base);
    LiteralIsTrimmed(n, base);
    LowerIgnoresCase(literal, Literal(n, base));
    LiteralIsLower(n, base);
    EachLiteralInItsRadix(literal);
    PaddingIsIgnored(before, literal, after);
  }

  lemma DigitsAreLower(s: string, base: nat)
    requires AllDigits(s, base) && base <= 16
    ensures Lower(s) == s
  {
  }

  lemma LiteralIsLower(n: nat, base: nat)
    requires IsRadix(base)
    ensures Lower(Literal(n, base)) == Literal(n, base)
  {
    PrintDenotes(n, base);
    DigitsAreLower(Print(n, base), base);
    LowerConcat(if base == 2 then "0b" else if base == 8 then "0" else if base == 16 then "0x" else "", Print(n, base));
  }

  lemma LiteralIsTrimmed(n: nat, base: nat)
    requires IsRadix(base)
    ensures Trim(Literal(n, base)) == Literal(n, base)
  {
    PrintDenotes(n, base);
    var t, p := Literal(n, base), Print(n, base);
    DigitIsNotWhite(p[0], base);
    DigitIsNotWhite(p[|p| - 1], base);
    assert t[0] == (if base == 10 then p[0] else '0') && t[|t| - 1] == p[|p| - 1];
  }

  lemma DigitIsNotWhite(c: char, base: nat)
    requires IsDigit(c, base) && base <= 16
    ensures !IsWhite(c)
  {
  }

  // ---------- White space and case

  lemma {:induction false} TrimLeftPadding(a: string, s: string)
    requires AllWhite(a)
    ensures TrimLeft(a + s) == TrimLeft(s)
  {
    if a == "" {
      assert a + s == s;
    } else {
      TrimLeftPadding(a[1..], s);
      assert (a + s)[1..] == a[1..] + s;
    }
  }

  lemma {:induction false} TrimRightPadding(s: string, b: string)
    requires AllWhite(b)
    ensures TrimRight(s + b) == TrimRight(s)
  {
    if b == "" {
      assert s + b == s;
    } else {
      TrimRightPadding(s, b[..|b| - 1]);
      assert (s + b)[..|s + b| - 1] == s + b[..|b| - 1];
    }
  }

  lemma {:induction false} TrimLeftKeepsEnd(s: string, b: string)
    requires AllWhite(b)
    ensures TrimLeft(s + b) == if TrimLeft(s) == "" then "" else TrimLeft(s) + b
  {
    if s == "" {
      TrimLeftPadding(b, "");
      assert b + "" == b && s + b == b;
    } else if IsWhite(s[0]) {
      TrimLeftKeepsEnd(s[1..], b);
      assert (s + b)[1..] == s[1..] + b;
    }
  }

  lemma TrimIgnoresPadding(a: string, s: string, b: string)
    requires AllWhite(a) && AllWhite(b)
    ensures Trim(a + s + b) == Trim(s)
  {
    assert a + s + b == a + (s + b);
    TrimLeftPadding(a, s + b);
    TrimLeftKeepsEnd(s, b);
    TrimRightPadding(TrimLeft(s), b);
  }

  lemma LowerConcat(a: string, b: string)
    ensures Lower(a + b) == Lower(a) + Lower(b)
  {
  }

  lemma WhiteHasNoCase(a: string)
    requires AllWhite(a)
    ensures Lower(a) == a
  {
  }

  /** White space around a string never changes how it is parsed. */
  lemma PaddingIsIgnored(before: string, s: string, after: string)
    requires AllWhite(before) && AllWhite(after)
    ensures GetRadix(before + s + after) == GetRadix(s)
    ensures ParseInteger(s).Success? ==> ParseInteger(before + s + after) == ParseInteger(s)
    ensures ParseInteger(s).Failure? ==> ParseInteger(before + s + after) == Failure(before + s + after)
  {
    LowerConcat(before + s, after);
    LowerConcat(before, s);
    WhiteHasNoCase(before);
    WhiteHasNoCase(after);
    TrimIgnoresPadding(before, Lower(s), after);
  }

  /** The second has a lower-case letter, 32 code points up, in places where the first has a capital one of ASCII. */
  ghost predicate SameButForCase(s: string, t: string) {
    && |s| == |t|
    && forall i | 0 <= i < |s| :: s[i] == t[i] || ('A' <= s[i] <= 'Z' && t[i] as int == s[i] as int + 32)
  }

  lemma LowerIgnoresCase(s: string, t: string)
    requires SameButForCase(s, t)
    ensures Lower(s) == Lower(t)
  {
    forall i | 0 <= i < |s|
      ensures LowerChar(s[i]) == LowerChar(t[i])
    {
      assert s[i] == t[i] || ('A' <= s[i] <= 'Z' && t[i] as int == s[i] as int + 32);
    }
  }

  /** Neither does the case of its letters. */
  lemma CaseIsIgnored(s: string, t: string)
    requires SameButForCase(s, t)
    ensures ParseInteger(s).Success? <==> ParseInteger(t).Success?
    ensures ParseInteger(s).Success? ==> ParseInteger(s) == ParseInteger(t)
  {
    LowerIgnoresCase(s, t);
  }

  // ---------- toCamelCase

  predicate IsLowerCase(c: char) {
    'a' <= c <= 'z'
  }

  function UpperChar(c: char): char
    requires IsLowerCase(c)
  {
    (c as int - 32) as char
  }

  predicate SnakeAt(s: string, i: nat) {
    i + 1 < |s| && s[i] == '_' && IsLowerCase(s[i + 1])
  }

  /** Only the first underscore before a lower-case letter is replaced. */
  function ToCamelCase(s: string): string {
    if s == "" then ""
    else if SnakeAt(s, 0) then [UpperChar(s[1])] + s[2..]
    else [s[0]] + ToCamelCase(s[1..])
  }

  /** How many underscores stand before a lower-case letter. */
  function Snakes(s: string): nat {
    if s == "" then 0 else (if SnakeAt(s, 0) then 1 else 0) + Snakes(s[1..])
  }

  predicate FirstSnake(s: string, i: nat) {
    SnakeAt(s, i) && forall j: nat | j < i :: !SnakeAt(s, j)
  }

  function ReplaceSnake(s: string, i: nat): string
    requires SnakeAt(s, i)
  {
    s[..i] + [UpperChar(s[i + 1])] + s[i + 2..]
  }

  lemma FirstSnakeShift(s: string, k: nat)
    requires s != "" && !SnakeAt(s, 0) && FirstSnake(s[1..], k)
    ensures FirstSnake(s, k + 1)
    ensures ReplaceSnake(s, k + 1) == [s[0]] + ReplaceSnake(s[1..], k)
  {
    forall j: nat | j < k + 1
      ensures !SnakeAt(s, j)
    {
      assert j > 0 ==> !SnakeAt(s[1..], j - 1);
    }
    assert s[..k + 1] == [s[0]] + s[1..][..k] && s[k + 3..] == s[1..][k + 2..];
  }

  lemma {:induction false} ReplacesFirst(s: string) returns (i: nat)
    ensures Snakes(s) == 0 ==> ToCamelCase(s) == s
    ensures Snakes(s) > 0 ==> FirstSnake(s, i) && ToCamelCase(s) == ReplaceSnake(s, i)
  {
    i := 0;
    if s == "" || SnakeAt(s, 0) {
    } else {
      var k := ReplacesFirst(s[1..]);
      if Snakes(s) > 0 {
        FirstSnakeShift(s, k);
        i := k + 1;
      }
    }
  }

  lemma {:induction false} SnakesAreSomewhere(s: string, i: nat)
    requires SnakeAt(s, i)
    ensures Snakes(s) > 0
  {
    if i == 0 {
    } else {
      SnakesAreSomewhere(s[1..], i - 1);
    }
  }

  /** An underscore stands before one of the letters from a to z. */
  ghost predicate BeforeLetter(s: string, i: nat) {
    i + 1 < |s| && s[i] == '_' && s[i + 1] in "abcdefghijklmnopqrstuvwxyz"
  }

  lemma SnakeIsBeforeLetter(s: string, i: nat)
    ensures SnakeAt(s, i) <==> BeforeLetter(s, i)
  {
    var letters := "abcdefghijklmnopqrstuvwxyz";
    if SnakeAt(s, i) {
      assert letters[s[i + 1] as int - 'a' as int] == s[i + 1];
    }
  }

  /** What is replaced is the first underscore before a letter, by that letter's capital, and nothing else. */
  lemma CamelCaseReplacesFirst(s: string) returns (i: nat)
    ensures (forall j: nat :: !BeforeLetter(s, j)) ==> ToCamelCase(s) == s
    ensures (exists j: nat :: BeforeLetter(s, j)) ==>
              && BeforeLetter(s, i) && (forall j: nat | j < i :: !BeforeLetter(s, j))
              && var c := ToCamelCase(s);
                 && |c| == |s| - 1 && c[..i] == s[..i] && c[i + 1..] == s[i + 2..]
                 && c[i] as int == s[i + 1] as int - 'a' as int + 'A' as int
  {
    i := ReplacesFirst(s);
    forall j: nat
      ensures SnakeAt(s, j) <==> BeforeLetter(s, j)
      ensures SnakeAt(s, j) ==> Snakes(s) > 0
    {
      SnakeIsBeforeLetter(s, j);
      if SnakeAt(s, j) {
        SnakesAreSomewhere(s, j);
      }
    }
    if Snakes(s) > 0 {
      assert SnakeAt(s, i) && BeforeLetter(s, i);
    }
  }

  /** Only what is camelCase already is fixed; all else gets one character shorter and has one underscore less. */
  lemma {:induction false} CamelCaseTakesOne(s: string)
    ensures Snakes(ToCamelCase(s)) == if Snakes(s) == 0 then 0 else Snakes(s) - 1
    ensures |ToCamelCase(s)| == if Snakes(s) == 0 then |s| else |s| - 1
    ensures ToCamelCase(s) == s <==> Snakes(s) == 0
  {
    if s == "" {
    } else {
      var c := ToCamelCase(s);
      if SnakeAt(s, 0) {
        assert c[1..] == s[2..] && s[1..][1..] == s[2..];
        assert !SnakeAt(c, 0) && !SnakeAt(s[1..], 0);
      } else {
        CamelCaseTakesOne(s[1..]);
        assert c[1..] == ToCamelCase(s[1..]);
        assert !SnakeAt(c, 0);
        assert s == [s[0]] + s[1..];
      }
    }
  }

  /** So a name becomes camelCase throughout exactly when it has at most one such underscore. */
  lemma CamelCaseIsCompleteIff(s: string)
    ensures Snakes(ToCamelCase(s)) == 0 <==> Snakes(s) <= 1
  {
  }
}
