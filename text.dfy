/**
 * String formatting used by the events: the decimal text `%lld` prints for a
 * 64-bit integer, and lists of fields joined by a separator character. Each
 * printer has a parser beside it and a lemma that parsing gives back what was
 * printed.
 */
module Text {
  import opened Wrappers

  const TwoTo63: int := 0x8000_0000_0000_0000
  const TwoTo64: int := 0x1_0000_0000_0000_0000

  /** An unsigned 64-bit integer (`uint64`). */
  type UInt64 = n: nat | n < 0x1_0000_0000_0000_0000

  /**
   * The value `%lld` prints for a `uint64` argument: the bits are read as a
   * signed two's-complement 64-bit integer.
   */
  function AsInt64(u: UInt64): (v: int)
    ensures -TwoTo63 <= v < TwoTo63
    ensures v == u || v == u - TwoTo64
    ensures v < 0 <==> u >= TwoTo63
  {
    if u < TwoTo63 then u else u - TwoTo64
  }

  /** Reading a signed 64-bit integer back as the `uint64` with the same bits. */
  function AsUInt64(v: int): UInt64
    requires -TwoTo63 <= v < TwoTo63
  {
    if v >= 0 then v else v + TwoTo64
  }

  lemma {:induction false} AsInt64Injective(u: UInt64, w: UInt64)
    requires AsInt64(u) == AsInt64(w)
    ensures u == w
  {
    assert AsUInt64(AsInt64(u)) == u;
    assert AsUInt64(AsInt64(w)) == w;
  }

  predicate IsDigit(c: char) {
    '0' <= c <= '9'
  }

  predicate AllDigits(s: string) {
    forall i :: 0 <= i < |s| ==> IsDigit(s[i])
  }

  function DigitChar(d: nat): (c: char)
    requires d < 10
    ensures IsDigit(c)
  {
    ('0' as int + d) as char
  }

  function DigitValue(c: char): (d: nat)
    requires IsDigit(c)
    ensures d < 10 && DigitChar(d) == c
  {
    c as int - '0' as int
  }

  /** Decimal digits of n, most significant first, without leading zeros. */
  function NatToDecimal(n: nat): (s: string)
    ensures |s| > 0 && AllDigits(s)
    ensures s[0] == '0' ==> s == "0"
    decreases n
  {
    if n < 10 then [DigitChar(n)] else NatToDecimal(n / 10) + [DigitChar(n % 10)]
  }

  /** The value of a string of decimal digits. */
  function DecimalToNat(s: string): nat
    requires AllDigits(s)
    decreases |s|
  {
    if s == [] then 0 else DecimalToNat(s[..|s| - 1]) * 10 + DigitValue(s[|s| - 1])
  }

  lemma {:induction false} DecimalRoundTrip(n: nat)
    ensures DecimalToNat(NatToDecimal(n)) == n
    decreases n
  {
    var s := NatToDecimal(n);
    if n >= 10 {
      DecimalRoundTrip(n / 10);
      assert s[..|s| - 1] == NatToDecimal(n / 10);
      assert DigitValue(s[|s| - 1]) == n % 10;
    }
  }

  /** The text `%lld` prints for the signed 64-bit value v. */
  function FormatLld(v: int): string
  {
    if v < 0 then "-" + NatToDecimal(-v) else NatToDecimal(v)
  }

  /** Reads back an optional minus sign followed by decimal digits. */
  function ParseLld(s: string): Option<int>
  {
    if |s| > 1 && s[0] == '-' && AllDigits(s[1..]) then Some(0 - DecimalToNat(s[1..]) as int)
    else if |s| > 0 && AllDigits(s) then Some(DecimalToNat(s))
    else None
  }

  lemma {:induction false} ParseNegative(d: string)
    requires |d| > 0 && AllDigits(d)
    ensures ParseLld("-" + d) == Some(0 - DecimalToNat(d) as int)
  {
    var s := "-" + d;
    assert s[1..] == d;
  }

  lemma {:induction false} ParseNonNegative(d: string)
    requires |d| > 0 && AllDigits(d)
    ensures ParseLld(d) == Some(DecimalToNat(d))
  {
    assert IsDigit(d[0]);
  }

  lemma {:induction false} LldRoundTrip(v: int)
    ensures ParseLld(FormatLld(v)) == Some(v)
  {
    if v < 0 {
      DecimalRoundTrip(-v);
      ParseNegative(NatToDecimal(-v));
    } else {
      DecimalRoundTrip(v);
      ParseNonNegative(NatToDecimal(v));
    }
  }


  /** The text `%lld` prints for a `uint64` argument. */
  function FormatUInt64AsLld(u: UInt64): string
  {
    FormatLld(AsInt64(u))
  }

  /** Distinct `uint64` values print differently, so the text determines the value. */
  lemma {:induction false} FormatUInt64AsLldInjective(u: UInt64, w: UInt64)
    requires FormatUInt64AsLld(u) == FormatUInt64AsLld(w)
    ensures u == w
  {
    LldRoundTrip(AsInt64(u));
    LldRoundTrip(AsInt64(w));
    AsInt64Injective(u, w);
  }

  /** The fields joined by the separator character, as a printf format with fixed separators writes them. */
  function Join(fields: seq<string>, sep: char): string
    decreases |fields|
  {
    if |fields| == 0 then ""
    else if |fields| == 1 then fields[0]
    else fields[0] + [sep] + Join(fields[1..], sep)
  }

  /** The position of the first occurrence of c in s. */
  function IndexOf(s: string, c: char): (k: nat)
    requires c in s
    ensures k < |s| && s[k] == c && c !in s[..k]
  {
    if s[0] == c then 0 else 1 + IndexOf(s[1..], c)
  }

  /** The pieces of s between occurrences of the separator. */
  function Split(s: string, sep: char): (fields: seq<string>)
    ensures |fields| >= 1
    decreases |s|
  {
    if sep !in s then [s]
    else
      var k := IndexOf(s, sep);
      [s[..k]] + Split(s[k + 1..], sep)
  }

  lemma {:induction false} IndexOfPrefix(f: string, sep: char, rest: string)
    requires sep !in f
    ensures sep in f + [sep] + rest
    ensures IndexOf(f + [sep] + rest, sep) == |f|
  {
    var s := f + [sep] + rest;
    assert s[|f|] == sep;
    assert s[..|f|] == f;
    assert sep in s[..|f| + 1];
  }

  lemma {:induction false} SplitJoin(fields: seq<string>, sep: char)
    requires |fields| >= 1
    requires forall i :: 0 <= i < |fields| ==> sep !in fields[i]
    ensures Split(Join(fields, sep), sep) == fields
    decreases |fields|
  {
    if |fields| > 1 {
      var rest := Join(fields[1..], sep);
      var s := fields[0] + [sep] + rest;
      assert Join(fields, sep) == s;
      IndexOfPrefix(fields[0], sep, rest);
      assert s[..|fields[0]|] == fields[0];
      assert s[|fields[0]| + 1..] == rest;
      SplitJoin(fields[1..], sep);
      assert Split(s, sep) == [fields[0]] + fields[1..];
    }
  }

  /** A field between single quotes, as `\'%s\'` prints it. */
  function Quoted(f: string): string
  {
    "'" + f + "'"
  }

  function Unquote(s: string): Option<string>
  {
    if |s| >= 2 && s[0] == '\'' && s[|s| - 1] == '\'' then Some(s[1..|s| - 1]) else None
  }

  function QuoteAll(fields: seq<string>): (r: seq<string>)
    ensures |r| == |fields|
    ensures forall i :: 0 <= i < |fields| ==> r[i] == Quoted(fields[i])
  {
    seq(|fields|, i requires 0 <= i < |fields| => Quoted(fields[i]))
  }

  function UnquoteAll(fields: seq<string>): Option<seq<string>>
    decreases |fields|
  {
    if fields == [] then Some([])
    else match (Unquote(fields[0]), UnquoteAll(fields[1..]))
      case (Some(f), Some(fs)) => Some([f] + fs)
      case _ => None
  }

  /** A comma-separated list of single-quoted fields. */
  function QuotedList(fields: seq<string>): string
  {
    Join(QuoteAll(fields), ',')
  }

  function ParseQuotedList(s: string): Option<seq<string>>
  {
    UnquoteAll(Split(s, ','))
  }

  lemma {:induction false} UnquoteQuoteAll(fields: seq<string>)
    ensures UnquoteAll(QuoteAll(fields)) == Some(fields)
    decreases |fields|
  {
    if fields != [] {
      var q := QuoteAll(fields);
      assert Unquote(q[0]) == Some(fields[0]) by {
        assert Quoted(fields[0])[1..|Quoted(fields[0])| - 1] == fields[0];
      }
      assert q[1..] == QuoteAll(fields[1..]);
      UnquoteQuoteAll(fields[1..]);
      assert [fields[0]] + fields[1..] == fields;
    }
  }

  /** Fields without commas are read back from their quoted list in order. */
  lemma {:induction false} QuotedListRoundTrip(fields: seq<string>)
    requires |fields| >= 1
    requires forall i :: 0 <= i < |fields| ==> ',' !in fields[i]
    ensures ParseQuotedList(QuotedList(fields)) == Some(fields)
  {
    var q := QuoteAll(fields);
    forall i | 0 <= i < |q|
      ensures ',' !in q[i]
    {
      assert q[i] == "'" + fields[i] + "'";
    }
    SplitJoin(q, ',');
    UnquoteQuoteAll(fields);
  }
}
