/** The pieces of Python string handling the error messages need:
    `str(n)` of a natural number, `repr` of a `bytes` object and
    `sep.join(parts)`. */
module Text {
  import opened Bytes

  predicate IsDigit(c: char)
  {
    '0' <= c <= '9'
  }

  /** `str(n)`: the decimal digits of `n`, most significant first, without
      leading zeros. */
  function Decimal(n: nat): (s: string)
    ensures |s| >= 1 && (s[0] == '0' ==> s == "0")
    ensures forall k :: 0 <= k < |s| ==> IsDigit(s[k])
    decreases n
  {
    if n < 10 then [('0' as int + n) as char]
    else Decimal(n / 10) + [('0' as int + n % 10) as char]
  }

  /** The number a string of decimal digits denotes. */
  function DecimalValue(s: string): nat
    requires forall k :: 0 <= k < |s| ==> IsDigit(s[k])
  {
    if |s| == 0 then 0
    else
      assert IsDigit(s[|s| - 1]);
      10 * DecimalValue(s[..|s| - 1]) + (s[|s| - 1] as int - '0' as int)
  }

  /** `str` loses nothing: its digits denote the number again. */
  lemma {:induction false} DecimalRoundTrip(n: nat)
    ensures DecimalValue(Decimal(n)) == n
    decreases n
  {
    var s := Decimal(n);
    if n >= 10 {
      DecimalRoundTrip(n / 10);
      assert s[..|s| - 1] == Decimal(n / 10);
    }
  }

  /** Different numbers print differently. */
  lemma DecimalInjective(m: nat, n: nat)
    requires Decimal(m) == Decimal(n)
    ensures m == n
  {
    DecimalRoundTrip(m);
    DecimalRoundTrip(n);
  }

  /** `sep.join(parts)`. */
  function Join(parts: seq<string>, sep: string): string
  {
    if |parts| == 0 then ""
    else if |parts| == 1 then parts[0]
    else parts[0] + sep + Join(parts[1..], sep)
  }

  /** Joining one more part puts one separator before it. */
  lemma {:induction false} JoinSnoc(parts: seq<string>, last: string, sep: string)
    ensures Join(parts + [last], sep) == if |parts| == 0 then last else Join(parts, sep) + sep + last
  {
    if |parts| > 1 {
      JoinSnoc(parts[1..], last, sep);
      assert (parts + [last])[1..] == parts[1..] + [last];
    } else if |parts| == 1 {
      assert (parts + [last])[1..] == [last];
    }
  }

  /** The lower-case hexadecimal digit of `d`. */
  function HexDigit(d: nat): char
    requires d < 16
  {
    if d < 10 then ('0' as int + d) as char else ('a' as int + d - 10) as char
  }

  /** One byte as `repr` of a `bytes` object shows it inside the quotes
      `quote`: the quote and the backslash escaped, tab, newline and return
      by name, other bytes outside 0x20..0x7E as `\xhh`, the rest as
      themselves. */
  function ReprByte(c: byte, quote: char): (r: string)
    ensures 1 <= |r| <= 4
    ensures 0x20 <= c < 0x7F && c != quote as int && c != '\\' as int ==> r == [c as char]
  {
    if c == quote as int || c == '\\' as int then ['\\', c as char]
    else if c == 9 then "\\t"
    else if c == 10 then "\\n"
    else if c == 13 then "\\r"
    else if c < 0x20 || c >= 0x7F then ['\\', 'x', HexDigit(c / 16), HexDigit(c % 16)]
    else [c as char]
  }

  function ReprBody(s: seq<byte>, quote: char): (r: string)
    ensures |s| <= |r| <= 4 * |s|
  {
    if |s| == 0 then "" else ReprByte(s[0], quote) + ReprBody(s[1..], quote)
  }

  /** The quote `repr` chooses: a double quote when the bytes hold a single
      quote and no double quote, else a single quote. */
  function ReprQuote(s: seq<byte>): char
  {
    if '\'' as int in s && '"' as int !in s then '"' else '\''
  }

  /** `repr(s)` of a `bytes` object, which is also what an f-string shows for
      it: `b`, the chosen quote, every byte shown, the quote again. */
  function BytesRepr(s: seq<byte>): (r: string)
    ensures 3 + |s| <= |r| <= 3 + 4 * |s|
    ensures r[0] == 'b' && r[1] == r[|r| - 1] == ReprQuote(s)
  {
    var q := ReprQuote(s);
    ['b', q] + ReprBody(s, q) + [q]
  }

  /** Printable bytes other than the quote and the backslash are shown as
      the characters they encode. */
  lemma {:induction false} ReprBodyPrintable(s: seq<byte>, quote: char)
    requires forall k :: 0 <= k < |s| ==> 0x20 <= s[k] < 0x7F && s[k] != quote as int && s[k] != '\\' as int
    ensures |ReprBody(s, quote)| == |s|
    ensures forall k :: 0 <= k < |s| ==> ReprBody(s, quote)[k] == s[k] as char
  {
    if |s| > 0 {
      ReprBodyPrintable(s[1..], quote);
    }
  }

  /** A tag of printable characters without quotes or backslashes appears
      in `repr` as `b'` + its characters + `'`. */
  lemma BytesReprPrintable(s: seq<byte>)
    requires forall k :: 0 <= k < |s| ==> 0x20 <= s[k] < 0x7F && s[k] != '\'' as int && s[k] != '\\' as int
    ensures |BytesRepr(s)| == |s| + 3 && BytesRepr(s)[..2] == "b'" && BytesRepr(s)[|s| + 2] == '\''
    ensures forall k :: 0 <= k < |s| ==> BytesRepr(s)[k + 2] == s[k] as char
  {
    assert '\'' as int !in s;
    ReprBodyPrintable(s, '\'');
  }
}
