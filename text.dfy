/**
 * The few functions of Go's `strings`, `strconv` and `fmt` packages that the
 * command-line tool relies on, over `string` (a sequence of characters).
 */
module Text {

  /** `s` ends with `suffix`. */
  predicate HasSuffix<T(==)>(s: seq<T>, suffix: seq<T>) {
    |suffix| <= |s| && s[|s| - |suffix|..] == suffix
  }

  /** Go's `strings.TrimSuffix`: drops one occurrence of `suffix` from the end, if present. */
  function TrimSuffix<T(==)>(s: seq<T>, suffix: seq<T>): (r: seq<T>)
    ensures HasSuffix(s, suffix) ==> r + suffix == s
    ensures !HasSuffix(s, suffix) ==> r == s
  {
    if HasSuffix(s, suffix) then s[..|s| - |suffix|] else s
  }

  /** Go's `strings.Join`. */
  function Join(parts: seq<string>, sep: string): (r: string)
    ensures parts == [] ==> r == ""
    ensures |parts| > 0 ==> |parts[0]| <= |r| && r[..|parts[0]|] == parts[0]
  {
    if |parts| == 0 then ""
    else if |parts| == 1 then parts[0]
    else parts[0] + sep + Join(parts[1..], sep)
  }

  /** Appending one more part adds exactly one separator and that part. */
  lemma {:induction false} JoinSnoc(parts: seq<string>, sep: string, last: string)
    requires parts != []
    ensures Join(parts + [last], sep) == Join(parts, sep) + sep + last
  {
    if |parts| == 1 {
      assert parts + [last] == [parts[0], last];
    } else {
      assert (parts + [last])[1..] == parts[1..] + [last];
      JoinSnoc(parts[1..], sep, last);
    }
  }

  /** ASCII lower-casing of one character; every other character is left alone. */
  function Lower(c: char): char {
    if 'A' <= c <= 'Z' then (c as int + 32) as char else c
  }

  /**
   * Go's `strings.EqualFold`, with case folding restricted to ASCII letters.
   * Against an all-ASCII word such as "none" this is exact: no other Unicode
   * character folds to n, o or e.
   */
  predicate EqualFold(a: string, b: string) {
    |a| == |b| && forall i :: 0 <= i < |a| ==> Lower(a[i]) == Lower(b[i])
  }

  /** Go's `strconv.FormatBool`. */
  function FormatBool(b: bool): string {
    if b then "true" else "false"
  }

  function DigitChar(d: nat): (c: char)
    requires d < 10
    ensures '0' <= c <= '9' && c as int - '0' as int == d
  {
    (d + '0' as int) as char
  }

  /** Decimal digits of `n`, most significant first, no leading zeros. */
  function NatToString(n: nat): (r: string)
    ensures |r| > 0
    ensures forall i :: 0 <= i < |r| ==> '0' <= r[i] <= '9'
    decreases n
  {
    if n < 10 then [DigitChar(n)] else NatToString(n / 10) + [DigitChar(n % 10)]
  }

  /** The number a string of decimal digits denotes. */
  function DecimalValue(s: string): nat
    requires forall i :: 0 <= i < |s| ==> '0' <= s[i] <= '9'
  {
    if s == [] then 0
    else DecimalValue(s[..|s| - 1]) * 10 + (s[|s| - 1] as int - '0' as int)
  }

  /** Reading back the digits `NatToString` writes gives the number again. */
  lemma {:induction false} NatToStringRoundTrip(n: nat)
    ensures DecimalValue(NatToString(n)) == n
    decreases n
  {
    if n >= 10 {
      var s := NatToString(n);
      assert s[..|s| - 1] == NatToString(n / 10);
      NatToStringRoundTrip(n / 10);
    }
  }

  /** `fmt.Sprintf("%d", n)`. */
  function Itoa(n: int): (r: string)
    ensures |r| > 0
    ensures (n < 0) == (r[0] == '-')
    ensures forall i :: 1 <= i < |r| ==> '0' <= r[i] <= '9'
    ensures r[0] != '-' ==> '0' <= r[0] <= '9'
  {
    if n < 0 then "-" + NatToString(-n) else NatToString(n)
  }

  /** The integer an optional minus sign followed by decimal digits denotes. */
  function IntValue(s: string): int
    requires s != [] && forall i :: 1 <= i < |s| ==> '0' <= s[i] <= '9'
    requires s[0] != '-' ==> '0' <= s[0] <= '9'
  {
    if s[0] == '-' then 0 - DecimalValue(s[1..]) else DecimalValue(s)
  }

  /** Reading back the sign and digits `Itoa` writes gives the number again. */
  lemma ItoaRoundTrip(n: int)
    ensures IntValue(Itoa(n)) == n
  {
    if n < 0 {
      var d := NatToString(-n);
      assert Itoa(n) == "-" + d;
      assert Itoa(n)[1..] == d;
      NatToStringRoundTrip(-n);
    } else {
      assert Itoa(n) == NatToString(n);
      NatToStringRoundTrip(n);
    }
  }
}
