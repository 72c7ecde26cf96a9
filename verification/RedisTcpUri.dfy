/** The database number in the path of a Redis URI. */
module RedisTcpUri {
  import opened Wrappers
  import opened Utility

  /** The longest run of decimal digits at the start. */
  function DigitRun(s: string): (run: string)
    ensures run <= s && AllDigits(run, 10)
    ensures |run| < |s| ==> !IsDigit(s[|run|], 10)
  {
    if s != "" && IsDigit(s[0], 10) then [s[0]] + DigitRun(s[1..]) else ""
  }

  function ZeroRun(s: string): (n: nat)
    ensures n <= |s| && (forall i | 0 <= i < n :: s[i] == '0') && (n < |s| ==> s[n] != '0')
  {
    if s != "" && s[0] == '0' then 1 + ZeroRun(s[1..]) else 0
  }

  /** Matches a slash, zeros and a group of digits: as many zeros as can be, giving them back until a digit is left. */
  function MatchDb(path: string): Option<string> {
    if path == "" || path[0] != '/' then None else MatchDigits(path[1..], ZeroRun(path[1..]))
  }

  function MatchDigits(s: string, zeros: nat): Option<string>
    requires zeros <= |s|
  {
    var run := DigitRun(s[zeros..]);
    if run != "" then Some(run)
    else if zeros == 0 then None
    else MatchDigits(s, zeros - 1)
  }

  function ParseDb(maybeDb: string): Result<Number, string> {
    match MatchDb(maybeDb)
    case None => Failure(maybeDb)
    case Some(digits) => ParseInteger(digits)
  }

  // ---------- What the number is

  lemma DigitsAreTrimmed(s: string)
    requires AllDigits(s, 10)
    ensures Lower(s) == s && Trim(s) == s
  {
  }

  lemma {:induction false} ZerosInFront(s: string, zeros: nat)
    requires zeros <= |s| && AllDigits(s, 10) && forall i | 0 <= i < zeros :: s[i] == '0'
    ensures ValueOf(s, 10) == ValueOf(s[zeros..], 10)
  {
    if zeros == 0 {
      assert s[0..] == s;
    } else {
      ZerosInFront(s[1..], zeros - 1);
      ZeroInFront(s[1..], 10);
      assert s == "0" + s[1..] && s[1..][zeros - 1..] == s[zeros..];
    }
  }

  lemma RunAfterZeros(s: string, zeros: nat)
    requires zeros <= |s| && forall i | 0 <= i < zeros :: s[i] == '0'
    ensures |DigitRun(s)| == zeros + |DigitRun(s[zeros..])|
    ensures DigitRun(s)[zeros..] == DigitRun(s[zeros..])
  {
  }

  /** The zeros at its start add nothing to a run of digits. */
  lemma RunValue(s: string)
    ensures var rest := DigitRun(s[ZeroRun(s)..]);
            ValueOf(DigitRun(s), 10) == ValueOf(rest, 10) && |DigitRun(s)| == ZeroRun(s) + |rest|
  {
    RunAfterZeros(s, ZeroRun(s));
    ZerosInFront(DigitRun(s), ZeroRun(s));
  }

  /** When nothing but zeros is there, all but the last are stripped. */
  lemma LastZeroIsKept(s: string, zeros: nat)
    requires 0 < zeros <= |s| && (forall i | 0 <= i < zeros :: s[i] == '0') && DigitRun(s[zeros..]) == ""
    ensures MatchDigits(s, zeros) == Some("0")
  {
    var t := s[zeros - 1..];
    assert t[0] == '0' && t[1..] == s[zeros..];
    assert DigitRun(t) == "0";
  }

  /** A group of digits without a leading zero, or the single zero, is read as decimal. */
  lemma GroupIsDecimal(digits: string)
    requires AllDigits(digits, 10) && digits != "" && (digits[0] != '0' || digits == "0")
    ensures ParseInteger(digits) == Success(ToNumber(ValueOf(digits, 10)))
  {
    DigitsAreTrimmed(digits);
    EachLiteralInItsRadix(digits);
    if digits == "0" {
      assert ValueOf(digits, 10) == 0 && ValueOf(digits[1..], 8) == 0;
    } else {
      assert IsDecimal(digits);
    }
  }

  /**
   * A path names a database exactly when a digit follows its slash, and then the database is the decimal value of
   * all the digits there: leading zeros never make the number octal.
   */
  lemma DbIsDecimal(path: string)
    ensures var run := DigitRun(if path == "" then "" else path[1..]);
            ParseDb(path) == if path != "" && path[0] == '/' && run != ""
                             then Success(ToNumber(ValueOf(run, 10))) else Failure(path)
  {
    if path != "" && path[0] == '/' {
      var s := path[1..];
      var zeros := ZeroRun(s);
      var rest := DigitRun(s[zeros..]);
      RunValue(s);
      if rest != "" {
        GroupIsDecimal(rest);
      } else if zeros > 0 {
        LastZeroIsKept(s, zeros);
        GroupIsDecimal("0");
      }
    }
  }
}
