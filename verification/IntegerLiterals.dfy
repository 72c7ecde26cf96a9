/** Exactly which strings `parseInteger` reads, and as what. */
module IntegerLiterals {
  import opened Wrappers
  import opened Utility

  // ---------- What a literal is

  /** White space and line terminators, by their code points. */
  ghost predicate Blank(s: string) {
    forall i | 0 <= i < |s| :: IsBlank(s[i])
  }

  ghost predicate IsBlank(c: char) {
    c as int in {9, 10, 11, 12, 13, 32, 160, 5760, 8192, 8193, 8194, 8195, 8196, 8197, 8198, 8199, 8200, 8201, 8202,
                 8232, 8233, 8239, 8287, 12288, 65279}
  }

  function Zeros(n: nat): string {
    seq(n, _ => '0')
  }

  /** `n` in the positional notation of that base, after any number of zeros. */
  function Numeral(n: nat, base: nat, zeros: nat): string
    requires 2 <= base <= 16
  {
    Zeros(zeros) + Print(n, base)
  }

  /** The literals of `n`, in lower case: 0b101, 0644, 0x20, 15, and 0. */
  ghost predicate IsLiteralOf(literal: string, n: nat, base: nat, zeros: nat) {
    || (base == 2 && literal == "0b" + Numeral(n, 2, zeros))
    || (base == 8 && literal == "0" + Numeral(n, 8, zeros))
    || (base == 16 && literal == "0x" + Numeral(n, 16, zeros))
    || (base == 10 && zeros == 0 && n > 0 && literal == Numeral(n, 10, 0))
    || (base == 8 && zeros == 0 && n == 0 && literal == "0")
  }

  /** The string is a literal of `n` in either case, with white space around it. */
  ghost predicate Reads(
      s: string, n: nat, before: string, literal: string, after: string, lowered: string, base: nat, zeros: nat)
  {
    && s == before + literal + after && Blank(before) && Blank(after)
    && SameButForCase(literal, lowered) && IsLiteralOf(lowered, n, base, zeros)
  }

  // ---------- Characters

  /** A digit is worth its place among the digits. */
  lemma DigitIsWorthItsPlace(c: char, base: nat)
    requires base <= 16
    ensures IsDigit(c, base) <==> exists d: nat :: d < base && "0123456789abcdef"[d] == c
    ensures forall d: nat | d < 16 && "0123456789abcdef"[d] == c :: IsDigit(c, 16) && DigitOf(c) == d
    ensures forall d: nat | d < 16 :: DigitChar(d) == "0123456789abcdef"[d]
  {
    if IsDigit(c, base) {
      assert "0123456789abcdef"[DigitOf(c)] == c;
    }
  }

  lemma BlankIsWhite(s: string)
    ensures Blank(s) <==> AllWhite(s)
  {
    forall i | 0 <= i < |s|
      ensures IsBlank(s[i]) <==> IsWhite(s[i])
    {
    }
  }

  // ---------- Every literal is read

  lemma {:induction false} ZerosDoNotCount(s: string, base: nat, zeros: nat)
    requires 2 <= base <= 16 && AllDigits(s, base)
    ensures AllDigits(Zeros(zeros) + s, base) && ValueOf(Zeros(zeros) + s, base) == ValueOf(s, base)
  {
    if zeros == 0 {
      assert Zeros(0) + s == s;
    } else {
      ZerosDoNotCount(s, base, zeros - 1);
      ZeroInFront(Zeros(zeros - 1) + s, base);
      assert Zeros(zeros) + s == "0" + (Zeros(zeros - 1) + s);
    }
  }

  lemma NumeralDenotes(n: nat, base: nat, zeros: nat)
    requires 2 <= base <= 16
    ensures var d := Numeral(n, base, zeros); d != "" && AllDigits(d, base) && ValueOf(d, base) == n
  {
    PrintDenotes(n, base);
    ZerosDoNotCount(Print(n, base), base, zeros);
  }

  lemma NumeralStarts(n: nat, base: nat, zeros: nat)
    requires 2 <= base <= 16
    ensures Numeral(n, base, zeros) != "" && (zeros > 0 ==> Numeral(n, base, zeros)[0] == '0')
    ensures zeros == 0 && n > 0 ==> Numeral(n, base, zeros)[0] != '0'
  {
    PrintDenotes(n, base);
    assert zeros == 0 ==> Numeral(n, base, zeros) == Print(n, base);
  }

  /** A literal belongs to its radix, and its digits denote its number. */
  lemma LiteralBelongs(t: string, n: nat, base: nat, zeros: nat)
    requires IsLiteralOf(t, n, base, zeros)
    ensures base == 2 || base == 8 || base == 10 || base == 16
    ensures base == 2 ==> IsBinary(t) && ValueOf(t[2..], 2) == n
    ensures base == 8 ==> IsOctal(t) && ValueOf(t[1..], 8) == n
    ensures base == 16 ==> IsHexadecimal(t) && ValueOf(t[2..], 16) == n
    ensures base == 10 ==> IsDecimal(t) && ValueOf(t, 10) == n
  {
    NumeralDenotes(n, base, zeros);
    NumeralStarts(n, base, zeros);
    if t == "0" {
      assert t[1..] == "";
    } else if base != 10 {
      assert t[(if base == 8 then 1 else 2)..] == Numeral(n, base, zeros);
    }
  }

  lemma FormsArePlain(t: string)
    requires IsOctal(t) || IsHexadecimal(t) || IsBinary(t) || IsDecimal(t)
    ensures Lower(t) == t && Trim(t) == t
  {
    forall i | 0 <= i < |t|
      ensures LowerChar(t[i]) == t[i] && !IsWhite(t[i])
    {
      var from := if IsHexadecimal(t) || IsBinary(t) then 2 else if IsOctal(t) then 1 else 0;
      assert i >= from ==> t[i] == t[from..][i - from];
    }
  }

  lemma LiteralIsRead(literal: string, n: nat, base: nat, zeros: nat)
    requires IsLiteralOf(literal, n, base, zeros)
    ensures ParseInteger(literal) == Success(ToNumber(n))
  {
    LiteralBelongs(literal, n, base, zeros);
    FormsArePlain(literal);
    EachLiteralInItsRadix(literal);
  }

  // ---------- And nothing else

  lemma PrintAppends(v: nat, d: nat, base: nat)
    requires 2 <= base <= 16 && d < base && v > 0
    ensures Print(v * base + d, base) == Print(v, base) + [DigitChar(d)]
  {
    assert v * base + d >= base;
    assert (v * base + d) / base == v && (v * base + d) % base == d;
  }

  lemma NumeralAppends(v: nat, d: nat, base: nat, zeros: nat) returns (zeros': nat)
    requires 2 <= base <= 16 && d < base
    ensures Numeral(v, base, zeros) + [DigitChar(d)] == Numeral(v * base + d, base, zeros')
  {
    if v > 0 {
      PrintAppends(v, d, base);
      zeros' := zeros;
    } else {
      assert Print(0, base) == "0" && Zeros(zeros) + "0" == Zeros(zeros + 1);
      zeros' := zeros + 1;
    }
  }

  lemma LastDigit(s: string, base: nat)
    requires 2 <= base <= 16 && AllDigits(s, base) && s != ""
    ensures var front, d := s[..|s| - 1], DigitOf(s[|s| - 1]);
            && d < base && s == front + [DigitChar(d)]
            && ValueOf(s, base) == ValueOf(front, base) * base + d
  {
  }

  lemma OneDigit(d: nat, base: nat)
    requires d < base && 2 <= base <= 16
    ensures [DigitChar(d)] == Numeral(d, base, 0)
  {
    assert Zeros(0) == "" && Print(d, base) == [DigitChar(d)];
  }

  /** Digits are a numeral of what they denote. */
  lemma {:induction false} DigitsAreNumeral(s: string, base: nat) returns (zeros: nat)
    requires 2 <= base <= 16 && AllDigits(s, base) && s != ""
    ensures s == Numeral(ValueOf(s, base), base, zeros)
  {
    LastDigit(s, base);
    var front, d := s[..|s| - 1], DigitOf(s[|s| - 1]);
    if front == "" {
      zeros := 0;
      OneDigit(d, base);
      assert ValueOf(front, base) * base == 0;
    } else {
      var z := DigitsAreNumeral(front, base);
      zeros := NumeralAppends(ValueOf(front, base), d, base, z);
    }
  }

  lemma ReadIsLiteral(t: string, n: nat) returns (base: nat, zeros: nat)
    requires Trim(Lower(t)) == t && ParseInteger(t) == Success(ToNumber(n))
    ensures IsLiteralOf(t, n, base, zeros)
  {
    EachLiteralInItsRadix(t);
    if t == "0" {
      base, zeros := 8, 0;
      assert t[1..] == "";
    } else if IsOctal(t) {
      base := 8;
      zeros := DigitsAreNumeral(t[1..], 8);
      assert t == "0" + t[1..];
    } else if IsHexadecimal(t) {
      base := 16;
      zeros := DigitsAreNumeral(t[2..], 16);
      assert t == "0x" + t[2..];
    } else if IsBinary(t) {
      base := 2;
      zeros := DigitsAreNumeral(t[2..], 2);
      assert t == "0b" + t[2..];
    } else {
      base := 10;
      zeros := DigitsAreNumeral(t, 10);
      DecimalIsPositive(t);
      NumeralStarts(n, 10, zeros);
    }
  }

  lemma {:induction false} DecimalIsPositive(t: string)
    requires AllDigits(t, 10) && t != "" && t[0] != '0'
    ensures ValueOf(t, 10) > 0
  {
    if |t| == 1 {
      assert ValueOf(t[..0], 10) == 0;
    } else {
      DecimalIsPositive(t[..|t| - 1]);
    }
  }

  /** What `trim` leaves, with what it took away. */
  lemma {:induction false} TrimLeftSplits(s: string) returns (before: string)
    ensures s == before + TrimLeft(s) && AllWhite(before)
  {
    if s != "" && IsWhite(s[0]) {
      var rest := TrimLeftSplits(s[1..]);
      before := [s[0]] + rest;
      assert s == [s[0]] + s[1..];
    } else {
      before := "";
    }
  }

  lemma {:induction false} TrimRightSplits(s: string) returns (after: string)
    ensures s == TrimRight(s) + after && AllWhite(after)
  {
    if s != "" && IsWhite(s[|s| - 1]) {
      var rest := TrimRightSplits(s[..|s| - 1]);
      after := rest + [s[|s| - 1]];
      assert s == s[..|s| - 1] + [s[|s| - 1]];
    } else {
      after := "";
    }
  }

  lemma WhiteWhenLowered(s: string)
    requires AllWhite(Lower(s))
    ensures AllWhite(s)
  {
    forall i | 0 <= i < |s|
      ensures IsWhite(s[i])
    {
      assert IsWhite(Lower(s)[i]);
    }
  }

  lemma LowerSlice(s: string, from: nat, to: nat)
    requires from <= to <= |s|
    ensures Lower(s[from..to]) == Lower(s)[from..to]
  {
  }

  /** A string is cut where its lower-case form is. */
  lemma CutLikeLower(s: string, a: string, t: string, b: string)
    returns (before: string, literal: string, after: string)
    requires Lower(s) == a + t + b
    ensures s == before + literal + after
    ensures Lower(before) == a && Lower(literal) == t && Lower(after) == b
  {
    var i, j := |a|, |a| + |t|;
    assert |s| == |Lower(s)| == j + |b|;
    before, literal, after := s[0..i], s[i..j], s[j..|s|];
    LowerSlice(s, 0, i);
    LowerSlice(s, i, j);
    LowerSlice(s, j, |s|);
  }

  /** A string is white space, something that `trim` keeps when it is lowered, and white space. */
  lemma Split(s: string) returns (before: string, literal: string, after: string)
    ensures s == before + literal + after && AllWhite(before) && AllWhite(after)
    ensures Lower(literal) == Trim(Lower(s))
  {
    var a := TrimLeftSplits(Lower(s));
    var b := TrimRightSplits(TrimLeft(Lower(s)));
    assert Lower(s) == a + Trim(Lower(s)) + b;
    before, literal, after := CutLikeLower(s, a, Trim(Lower(s)), b);
    WhiteWhenLowered(before);
    WhiteWhenLowered(after);
  }

  lemma {:induction false} TrimLeftStarts(s: string)
    ensures TrimLeft(s) != "" ==> !IsWhite(TrimLeft(s)[0])
  {
    if s != "" && IsWhite(s[0]) {
      TrimLeftStarts(s[1..]);
    }
  }

  lemma {:induction false} TrimRightEnds(s: string)
    requires s != "" ==> !IsWhite(s[0])
    ensures TrimRight(TrimRight(s)) == TrimRight(s)
    ensures TrimRight(s) != "" ==> !IsWhite(TrimRight(s)[0])
  {
    if s != "" && IsWhite(s[|s| - 1]) {
      TrimRightEnds(s[..|s| - 1]);
    }
  }

  lemma TrimIsIdempotent(s: string)
    ensures Trim(Trim(s)) == Trim(s)
  {
    TrimLeftStarts(s);
    TrimRightEnds(TrimLeft(s));
    assert TrimLeft(Trim(s)) == Trim(s);
  }

  /** A string is read as `n` exactly if it is a literal of `n` in either case with white space around it. */
  lemma ParsesIff(s: string, n: nat)
    ensures ParseInteger(s) == Success(ToNumber(n))
            <==> exists before, literal, after, lowered, base, zeros ::
                   Reads(s, n, before, literal, after, lowered, base, zeros)
    ensures ToNumber(n) == if n < 9007199254740992 then Exact(n) else Rounded(n)
    ensures ParseInteger(s).Failure? ==> ParseInteger(s) == Failure(s)
  {
    if ParseInteger(s) == Success(ToNumber(n)) {
      ParsedIsRead(s, n);
    }
    if before, literal, after, lowered, base, zeros :| Reads(s, n, before, literal, after, lowered, base, zeros) {
      BlankIsWhite(before);
      BlankIsWhite(after);
      LiteralIsRead(lowered, n, base, zeros);
      CaseIsIgnored(literal, lowered);
      PaddingIsIgnored(before, literal, after);
    }
  }

  lemma ParsedIsRead(s: string, n: nat)
    requires ParseInteger(s) == Success(ToNumber(n))
    ensures exists before, literal, after, lowered, base, zeros ::
              Reads(s, n, before, literal, after, lowered, base, zeros)
  {
    var before, literal, after := Split(s);
    var t := Lower(literal);
    TrimIsIdempotent(Lower(s));
    assert Lower(t) == t && SameButForCase(literal, t);
    assert ParseInteger(t) == ParseInteger(s);
    var base, zeros := ReadIsLiteral(t, n);
    BlankIsWhite(before);
    BlankIsWhite(after);
    assert Reads(s, n, before, literal, after, t, base, zeros);
  }
}
