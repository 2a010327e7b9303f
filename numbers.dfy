/** Number formatting and recognition as JavaScript does it for the values
    the extension handles: decimal text of integers (`toString`, template
    literals), whether `Number(s)` is a number (`!isNaN(Number(s))`), and
    the runs matched by the global pattern `/\d+/g`. */
module Numbers {
  import opened Wrappers
  import opened Strings

  /** `\d` of a JavaScript regular expression: ASCII digits only. */
  predicate IsDigit(c: char) {
    '0' <= c <= '9'
  }

  predicate AllDigits(s: string) {
    forall i :: 0 <= i < |s| ==> IsDigit(s[i])
  }

  function DigitChar(d: nat): (c: char)
    requires d < 10
    ensures IsDigit(c)
  {
    ['0', '1', '2', '3', '4', '5', '6', '7', '8', '9'][d]
  }

  function DigitValue(c: char): (d: nat)
    requires IsDigit(c)
    ensures d < 10 && DigitChar(d) == c
  {
    (c as int - '0' as int) as nat
  }

  /** Decimal text of a natural number, without leading zeros. */
  function NatToString(n: nat): (s: string)
    ensures |s| >= 1 && AllDigits(s)
    ensures s[0] == '0' ==> n == 0
  {
    if n < 10 then [DigitChar(n)] else NatToString(n / 10) + [DigitChar(n % 10)]
  }

  /** Value of a string of decimal digits. */
  function ParseDigits(s: string): nat
    requires AllDigits(s)
  {
    if s == [] then 0 else 10 * ParseDigits(s[..|s| - 1]) + DigitValue(s[|s| - 1])
  }

  /** Reading the decimal text back gives the number. */
  lemma {:induction false} ParseNatToString(n: nat)
    ensures ParseDigits(NatToString(n)) == n
  {
    if n >= 10 {
      var s := NatToString(n);
      assert s[..|s| - 1] == NatToString(n / 10);
      ParseNatToString(n / 10);
    }
  }

  /** The decimal text determines the number. */
  lemma NatToStringInjective(m: nat, n: nat)
    requires NatToString(m) == NatToString(n)
    ensures m == n
  {
    ParseNatToString(m);
    ParseNatToString(n);
  }

  /** Decimal text of an integer (a JavaScript integer-valued Number below 1e21). */
  function IntToString(i: int): (s: string)
    ensures |s| >= 1
    ensures i >= 0 <==> AllDigits(s)
  {
    if i < 0 then
      var s := "-" + NatToString(-i);
      assert !IsDigit(s[0]);
      s
    else NatToString(i)
  }

  /** `${code}` for a Number-or-null exit code. */
  function CodeText(code: Option<int>): string {
    match code
    case None => "null"
    case Some(c) => IntToString(c)
  }

  // ---- Number(s) is not NaN (the StringNumericLiteral grammar of ECMAScript)

  /** One or more ASCII digits. */
  predicate IsDigits(s: string) {
    |s| >= 1 && AllDigits(s)
  }

  predicate IsHexDigit(c: char) {
    IsDigit(c) || ('a' <= c <= 'f') || ('A' <= c <= 'F')
  }

  /** `0x..`, `0o..` and `0b..` integers (no sign allowed). */
  predicate IsNonDecimalInteger(s: string) {
    |s| >= 3 && s[0] == '0' &&
    var body := s[2..];
    if s[1] == 'x' || s[1] == 'X' then forall i :: 0 <= i < |body| ==> IsHexDigit(body[i])
    else if s[1] == 'o' || s[1] == 'O' then forall i :: 0 <= i < |body| ==> '0' <= body[i] <= '7'
    else if s[1] == 'b' || s[1] == 'B' then forall i :: 0 <= i < |body| ==> body[i] == '0' || body[i] == '1'
    else false
  }

  /** Digits with at most one `.`, and at least one digit. */
  predicate IsMantissa(m: string) {
    match IndexOf(m, ".")
    case None => IsDigits(m)
    case Some(i) =>
      AllDigits(m[..i]) && AllDigits(m[i + 1..]) && |m| >= 2
  }

  /** `[+|-]` then one or more digits. */
  predicate IsSignedDigits(e: string) {
    if |e| >= 1 && (e[0] == '+' || e[0] == '-') then IsDigits(e[1..]) else IsDigits(e)
  }

  /** Index of the first `e` or `E`. */
  function ExponentStart(s: string): (r: Option<nat>)
    ensures r.Some? ==> r.value < |s| && (s[r.value] == 'e' || s[r.value] == 'E')
    ensures r.None? <==> 'e' !in s && 'E' !in s
  {
    FirstOccurrenceIsChar(s, 'e');
    FirstOccurrenceIsChar(s, 'E');
    match IndexOf(s, "e")
    case Some(i) =>
      (match IndexOf(s, "E")
       case Some(j) => if j < i then Some(j) else Some(i)
       case None => Some(i))
    case None => IndexOf(s, "E")
  }

  predicate IsUnsignedDecimal(s: string) {
    s == "Infinity" ||
    match ExponentStart(s)
    case None => IsMantissa(s)
    case Some(i) => i < |s| && IsMantissa(s[..i]) && IsSignedDigits(s[i + 1..])
  }

  predicate IsDecimalLiteral(s: string) {
    if |s| >= 1 && (s[0] == '+' || s[0] == '-') then IsUnsignedDecimal(s[1..]) else IsUnsignedDecimal(s)
  }

  /** `!isNaN(Number(s))`: after trimming, the text is empty (which is 0),
      a decimal literal (with `Infinity`), or a `0x`/`0o`/`0b` integer. */
  predicate IsNumeric(s: string) {
    var t := Trim(s);
    t == [] || IsDecimalLiteral(t) || IsNonDecimalInteger(t)
  }

  /** Every digit string is numeric for `Number`. */
  lemma DigitsAreNumeric(s: string)
    requires IsDigits(s)
    ensures IsNumeric(s)
  {
    assert !IsJsWhitespace(s[0]) && !IsJsWhitespace(s[|s| - 1]);
    TrimOfTrimmed(s);
    assert '.' !in s && 'e' !in s && 'E' !in s;
    AbsentChar(s, '.');
    assert ExponentStart(s).None?;
    assert IsMantissa(s);
    assert IsUnsignedDecimal(s);
    assert IsDecimalLiteral(s);
  }

  /** The decimal text of a port number is numeric. */
  lemma NatTextIsNumeric(n: nat)
    ensures IsNumeric(NatToString(n))
  {
    DigitsAreNumeric(NatToString(n));
  }

  /** A lower-case letter that no numeric literal holds (`e`, the `x`, `o`,
      `b` prefixes, hex digits and the letters of `Infinity` are the others). */
  predicate IsForeignLetter(c: char) {
    'g' <= c <= 'w' && c != 'i' && c != 'n' && c != 'o' && c != 't'
  }

  /** A trimmed string holding a foreign letter is not numeric. */
  lemma NotNumericWithLetter(s: string, k: nat)
    requires IsTrimmed(s) && k < |s|
    requires IsForeignLetter(s[k])
    ensures !IsNumeric(s)
  {
    TrimOfTrimmed(s);
    NotNonDecimalWithLetter(s, k);
    NotDecimalWithLetter(s, k);
  }

  lemma NotNonDecimalWithLetter(s: string, k: nat)
    requires k < |s| && IsForeignLetter(s[k])
    ensures !IsNonDecimalInteger(s)
  {
    if k >= 2 && |s| >= 3 {
      assert s[2..][k - 2] == s[k];
    }
  }

  lemma NotDecimalWithLetter(s: string, k: nat)
    requires k < |s| && IsForeignLetter(s[k])
    ensures !IsDecimalLiteral(s)
  {
    if s[0] == '+' || s[0] == '-' {
      assert s[1..][k - 1] == s[k];
      NotUnsignedWithLetter(s[1..], k - 1);
    } else {
      NotUnsignedWithLetter(s, k);
    }
  }

  lemma NotUnsignedWithLetter(u: string, k: nat)
    requires k < |u| && IsForeignLetter(u[k])
    ensures !IsUnsignedDecimal(u)
  {
    assert forall j :: 0 <= j < 8 ==> !IsForeignLetter("Infinity"[j]);
    match ExponentStart(u)
    case None =>
      NotMantissaWithLetter(u, k);
    case Some(i) =>
      if k < i {
        assert u[..i][k] == u[k];
        NotMantissaWithLetter(u[..i], k);
      } else if k > i {
        var e := u[i + 1..];
        assert e[k - i - 1] == u[k];
        if k - i - 1 >= 1 {
          assert e[1..][k - i - 2] == u[k];
        }
      }
  }

  lemma NotMantissaWithLetter(m: string, k: nat)
    requires k < |m| && IsForeignLetter(m[k])
    ensures !IsMantissa(m)
  {
    match IndexOf(m, ".")
    case None =>
    case Some(i) =>
      assert m[i..i + 1][0] == m[i];
      if k < i {
        assert m[..i][k] == m[k];
      } else if k > i {
        assert m[i + 1..][k - i - 1] == m[k];
      }
  }

  // ---- The runs of /\d+/g

  /** The maximal runs of ASCII digits, left to right (`s.match(/\d+/g)`,
      with the empty list for `null`). */
  function DigitRuns(s: string): (runs: seq<string>)
    ensures forall i :: 0 <= i < |runs| ==> IsDigits(runs[i])
    decreases |s|
  {
    if s == [] then []
    else if !IsDigit(s[0]) then DigitRuns(s[1..])
    else
      var n := RunLength(s);
      [s[..n]] + DigitRuns(s[n..])
  }

  /** Length of the digit run at the start of `s`. */
  function RunLength(s: string): (n: nat)
    ensures n <= |s| && AllDigits(s[..n])
    ensures n < |s| ==> !IsDigit(s[n])
    ensures |s| >= 1 && IsDigit(s[0]) ==> n >= 1
  {
    if s == [] || !IsDigit(s[0]) then 0 else 1 + RunLength(s[1..])
  }

  /** `s.match(/\d+/g)?.[1]`: the second digit run, if there is one. */
  function SecondDigitRun(s: string): Option<string> {
    var runs := DigitRuns(s);
    if |runs| >= 2 then Some(runs[1]) else None
  }

  lemma {:induction false} DigitRunsOfNonDigits(s: string)
    requires forall i :: 0 <= i < |s| ==> !IsDigit(s[i])
    ensures DigitRuns(s) == []
    decreases |s|
  {
    if s != [] {
      DigitRunsOfNonDigits(s[1..]);
    }
  }

  /** A digit run ended by a non-digit splits off first. */
  lemma {:induction false} DigitRunsOfRun(d: string, rest: string)
    requires IsDigits(d)
    requires rest == [] || !IsDigit(rest[0])
    ensures DigitRuns(d + rest) == [d] + DigitRuns(rest)
  {
    var s := d + rest;
    RunLengthOfRun(d, rest);
    assert s[..|d|] == d && s[|d|..] == rest;
  }

  lemma {:induction false} RunLengthOfRun(d: string, rest: string)
    requires AllDigits(d)
    requires rest == [] || !IsDigit(rest[0])
    ensures RunLength(d + rest) == |d|
    decreases |d|
  {
    if d != [] {
      assert (d + rest)[1..] == d[1..] + rest;
      RunLengthOfRun(d[1..], rest);
    } else {
      assert d + rest == rest;
    }
  }

  /** Non-digits in front of a text do not add runs. */
  lemma {:induction false} DigitRunsAfterNonDigits(pre: string, s: string)
    requires forall i :: 0 <= i < |pre| ==> !IsDigit(pre[i])
    ensures DigitRuns(pre + s) == DigitRuns(s)
    decreases |pre|
  {
    if pre != [] {
      assert (pre + s)[1..] == pre[1..] + s;
      DigitRunsAfterNonDigits(pre[1..], s);
    } else {
      assert pre + s == s;
    }
  }

  /** In a text of the form `... 8000 ... 8001 ...` the second run is the
      second number. */
  lemma SecondDigitRunOf(pre: string, first: string, mid: string, second: string, post: string)
    requires forall i :: 0 <= i < |pre| ==> !IsDigit(pre[i])
    requires forall i :: 0 <= i < |mid| ==> !IsDigit(mid[i])
    requires IsDigits(first) && IsDigits(second) && mid != []
    requires post == [] || !IsDigit(post[0])
    ensures SecondDigitRun(pre + first + mid + second + post) == Some(second)
  {
    var u := second + post;
    var tail := mid + u;
    var t := first + tail;
    assert pre + first + mid + second + post == pre + t;
    DigitRunsAfterNonDigits(pre, t);
    assert tail[0] == mid[0];
    DigitRunsOfRun(first, tail);
    DigitRunsAfterNonDigits(mid, u);
    DigitRunsOfRun(second, post);
    assert DigitRuns(pre + t) == [first] + ([second] + DigitRuns(post));
  }

  /** A text with a single number has no second run. */
  lemma NoSecondDigitRun(pre: string, first: string, post: string)
    requires forall i :: 0 <= i < |pre| ==> !IsDigit(pre[i])
    requires forall i :: 0 <= i < |post| ==> !IsDigit(post[i])
    requires IsDigits(first)
    ensures SecondDigitRun(pre + first + post) == None
  {
    var t := first + post;
    assert pre + first + post == pre + t;
    DigitRunsAfterNonDigits(pre, t);
    DigitRunsOfRun(first, post);
    DigitRunsOfNonDigits(post);
  }
}
