/** String assembly as `string.Join` and `StringBuilder` loops do it. */
module SqlText {

  /** `string.Join(sep, parts)`: the parts with `sep` between neighbours. */
  function Join(sep: string, parts: seq<string>): string
    decreases |parts|
  {
    if |parts| == 0 then ""
    else if |parts| == 1 then parts[0]
    else Join(sep, parts[..|parts| - 1]) + sep + parts[|parts| - 1]
  }

  /** Every part followed by `sep`: what a loop appending `part + sep` builds. */
  function Terminated(parts: seq<string>, sep: string): string
    decreases |parts|
  {
    if parts == [] then "" else Terminated(parts[..|parts| - 1], sep) + parts[|parts| - 1] + sep
  }

  /** Dropping the last separator of a terminated list gives the joined list. */
  lemma {:induction false} TerminatedIsJoinThenSep(parts: seq<string>, sep: string)
    requires parts != []
    ensures Terminated(parts, sep) == Join(sep, parts) + sep
    decreases |parts|
  {
    if |parts| > 1 {
      TerminatedIsJoinThenSep(parts[..|parts| - 1], sep);
    }
  }

  /** Appending one part to a list extends the terminated text by that part. */
  lemma TerminatedSnoc(parts: seq<string>, x: string, sep: string)
    ensures Terminated(parts + [x], sep) == Terminated(parts, sep) + x + sep
  {
    assert (parts + [x])[..|parts|] == parts;
  }

  /** Removes the last `n` characters, as `StringBuilder.Length -= n` does. */
  function DropLast(s: string, n: nat): string
    requires n <= |s|
  {
    s[..|s| - n]
  }

  lemma DropSuffix(s: string, t: string)
    ensures DropLast(s + t, |t|) == s
  {
    assert (s + t)[..|s|] == s;
  }

  function DigitChar(d: nat): char
    requires d < 10
  {
    "0123456789"[d]
  }

  /** Decimal digits of `n`, without sign or leading zeros (`int.ToString()`). */
  function NatToString(n: nat): (r: string)
    ensures |r| > 0
    ensures forall i :: 0 <= i < |r| ==> '0' <= r[i] <= '9'
    decreases n
  {
    if n < 10 then [DigitChar(n)] else NatToString(n / 10) + [DigitChar(n % 10)]
  }

  function IntToString(i: int): string
  {
    if i < 0 then "-" + NatToString(-i) else NatToString(i)
  }

  /** Reads a string of decimal digits back as a number. */
  function ParseNat(s: string): nat
    requires forall i :: 0 <= i < |s| ==> '0' <= s[i] <= '9'
    decreases |s|
  {
    if s == [] then 0 else 10 * ParseNat(s[..|s| - 1]) + (s[|s| - 1] as int - '0' as int)
  }

  /** A placeholder index is rendered without loss: reading it back gives the index. */
  lemma {:induction false} ParseNatToString(n: nat)
    ensures ParseNat(NatToString(n)) == n
    decreases n
  {
    if n >= 10 {
      var s := NatToString(n / 10) + [DigitChar(n % 10)];
      assert s[..|s| - 1] == NatToString(n / 10);
      ParseNatToString(n / 10);
    }
  }
}
