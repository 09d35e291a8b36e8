/** The periodic status message: its text, built from the two totals, and
    the environment gate that switches the notifier on. */
module Status {
  import opened Wrappers

  /** Text before the success total. */
  const Header: string := "Emotobooth Status Update: \r\nSuccess: "
  /** Text between the success total and the failure total. */
  const Separator: string := " \r\nFailed: "

  predicate IsDigit(c: char) {
    '0' <= c <= '9'
  }

  predicate AllDigits(s: string) {
    forall i :: 0 <= i < |s| ==> IsDigit(s[i])
  }

  /** A decimal numeral as JavaScript prints a non-negative integer: at least
      one digit, and no leading zero except in "0" itself. */
  predicate Canonical(s: string) {
    |s| > 0 && AllDigits(s) && (s[0] == '0' ==> s == "0")
  }

  /** The digit character for `d`. */
  function DigitChar(d: nat): (c: char)
    requires d < 10
    ensures IsDigit(c)
  {
    ('0' as int + d) as char
  }

  /** The text of `${n}` for a non-negative integer `n`. */
  function DecimalString(n: nat): (s: string)
    ensures Canonical(s)
  {
    if n < 10 then [DigitChar(n)] else DecimalString(n / 10) + [DigitChar(n % 10)]
  }

  /** The number a string of digits denotes. */
  function DecimalValue(s: string): nat
    requires AllDigits(s)
  {
    if s == [] then 0 else DecimalValue(s[..|s| - 1]) * 10 + (s[|s| - 1] as int - '0' as int)
  }

  /** Reading the printed numeral gives the number back. */
  lemma {:induction false} DecimalRoundTrip(n: nat)
    ensures DecimalValue(DecimalString(n)) == n
  {
    var s := DecimalString(n);
    if n >= 10 {
      DecimalRoundTrip(n / 10);
      assert s[..|s| - 1] == DecimalString(n / 10);
    }
  }

  /** Printing the number a canonical numeral denotes gives the numeral back. */
  lemma {:induction false} CanonicalRoundTrip(s: string)
    requires Canonical(s)
    ensures DecimalString(DecimalValue(s)) == s
    decreases |s|
  {
    var init := s[..|s| - 1];
    if |s| > 1 {
      assert init[0] == s[0];
      assert init[0] != '0';
      assert Canonical(init);
      CanonicalRoundTrip(init);
      PositiveValue(init);
      assert s == init + [s[|s| - 1]];
    }
  }

  /** A numeral that does not start with '0' denotes a positive number. */
  lemma {:induction false} PositiveValue(s: string)
    requires |s| > 0 && AllDigits(s) && s[0] != '0'
    ensures DecimalValue(s) > 0
    decreases |s|
  {
    if |s| > 1 {
      PositiveValue(s[..|s| - 1]);
    }
  }

  /** The longest prefix of digits. */
  function TakeDigits(s: string): (d: string)
    ensures |d| <= |s| && s[..|d|] == d && AllDigits(d)
    ensures |d| < |s| ==> !IsDigit(s[|d|])
  {
    if s == [] || !IsDigit(s[0]) then [] else [s[0]] + TakeDigits(s[1..])
  }

  /** The digit run of a numeral followed by a non-digit is that numeral. */
  lemma {:induction false} TakeDigitsOfAppend(a: string, b: string)
    requires AllDigits(a)
    requires b != [] && !IsDigit(b[0])
    ensures TakeDigits(a + b) == a
  {
    if a != [] {
      assert (a + b)[1..] == a[1..] + b;
      TakeDigitsOfAppend(a[1..], b);
    } else {
      assert a + b == b;
    }
  }

  /** The body of the status message for the two current totals. */
  function StatusBody(processed: nat, failed: nat): string {
    Header + DecimalString(processed) + Separator + DecimalString(failed)
  }

  /** `s` begins with `prefix`. */
  predicate StartsWith(s: string, prefix: string) {
    |prefix| <= |s| && s[..|prefix|] == prefix
  }

  /** Reads the two totals back out of a status message; None for any text
      that is not exactly a status message. */
  function ParseStatus(m: string): Option<(nat, nat)> {
    if StartsWith(m, Header) then ParseTotals(m[|Header|..]) else None
  }

  /** Reads "<total> \r\nFailed: <total>", both totals canonical. */
  function ParseTotals(rest: string): Option<(nat, nat)> {
    var d1 := TakeDigits(rest);
    var after := rest[|d1|..];
    if Canonical(d1) && StartsWith(after, Separator) && Canonical(after[|Separator|..]) then
      Some((DecimalValue(d1), DecimalValue(after[|Separator|..])))
    else None
  }

  /** The message reports the current totals: both can be read back from it. */
  lemma StatusRoundTrip(processed: nat, failed: nat)
    ensures ParseStatus(StatusBody(processed, failed)) == Some((processed, failed))
  {
    var d1, d2 := DecimalString(processed), DecimalString(failed);
    var m := StatusBody(processed, failed);
    var rest := d1 + (Separator + d2);
    assert m == Header + rest;
    assert StartsWith(m, Header) && m[|Header|..] == rest;
    TakeDigitsOfAppend(d1, Separator + d2);
    assert rest[|d1|..] == Separator + d2;
    assert (Separator + d2)[|Separator|..] == d2;
    DecimalRoundTrip(processed);
    DecimalRoundTrip(failed);
  }

  /** Every text that reads as a status message is the message for the totals
      it reads as. */
  lemma ParseStatusSound(m: string, processed: nat, failed: nat)
    requires ParseStatus(m) == Some((processed, failed))
    ensures m == StatusBody(processed, failed)
  {
    StartsWithSplit(m, Header);
    ParseTotalsSound(m[|Header|..], processed, failed);
  }

  /** The part after the header reads back to the two totals only when it
      is exactly their numerals around the separator. */
  lemma ParseTotalsSound(rest: string, processed: nat, failed: nat)
    requires ParseTotals(rest) == Some((processed, failed))
    ensures rest == DecimalString(processed) + Separator + DecimalString(failed)
  {
    var d1 := TakeDigits(rest);
    var after := rest[|d1|..];
    var d2 := after[|Separator|..];
    CanonicalRoundTrip(d1);
    CanonicalRoundTrip(d2);
    StartsWithSplit(after, Separator);
    assert rest == d1 + after;
  }

  /** A string that starts with `prefix` is `prefix` followed by the rest. */
  lemma StartsWithSplit(s: string, prefix: string)
    requires StartsWith(s, prefix)
    ensures s == prefix + s[|prefix|..]
  {
  }

  /** Distinct totals give distinct messages. */
  lemma StatusBodyInjective(p1: nat, f1: nat, p2: nat, f2: nat)
    requires StatusBody(p1, f1) == StatusBody(p2, f2)
    ensures p1 == p2 && f1 == f2
  {
    StatusRoundTrip(p1, f1);
    StatusRoundTrip(p2, f2);
  }

  /** JavaScript truthiness of an environment variable: set and not empty. */
  predicate Truthy(env: map<string, string>, name: string) {
    name in env && env[name] != ""
  }

  /** `process.env.TWILLIO_SID && process.env.TWILLIO_TOKEN`. */
  predicate NotifierEnabled(env: map<string, string>) {
    Truthy(env, "TWILLIO_SID") && Truthy(env, "TWILLIO_TOKEN")
  }
}
