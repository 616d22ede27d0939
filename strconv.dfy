/**
  Stand-ins for the parts of Go's strconv package the generators call:
  decimal formatting, string and rune quoting, and unquoting.  They follow
  the Go functions on ASCII text; `Unquote` accepts what `Quote` produces,
  which the round-trip lemma states.
 */
module Strconv {
  import opened Wrappers

  function DigitChar(d: nat): (c: char)
    requires d < 10
    ensures '0' <= c <= '9'
  {
    ((('0' as int) + d) as char)
  }

  predicate IsDecimal(s: string)
  {
    forall i :: 0 <= i < |s| ==> '0' <= s[i] <= '9'
  }

  /** `strconv.FormatUint(n, 10)`: the decimal digits of `n`, without leading zeros. */
  function Decimal(n: nat): (s: string)
    ensures |s| >= 1 && IsDecimal(s)
    decreases n
  {
    if n < 10 then [DigitChar(n)] else Decimal(n / 10) + [DigitChar(n % 10)]
  }

  /** The value of a string of decimal digits. */
  function DecimalValue(s: string): nat
    requires IsDecimal(s)
  {
    if |s| == 0 then 0 else DecimalValue(s[..|s| - 1]) * 10 + (s[|s| - 1] as int - '0' as int)
  }

  lemma {:induction false} DecimalRoundTrip(n: nat)
    ensures DecimalValue(Decimal(n)) == n
    decreases n
  {
    if n >= 10 {
      DecimalRoundTrip(n / 10);
      var s := Decimal(n);
      assert s[..|s| - 1] == Decimal(n / 10);
    }
  }

  /** Different numbers have different decimal forms. */
  lemma DecimalInjective(m: nat, n: nat)
    ensures Decimal(m) == Decimal(n) ==> m == n
  {
    DecimalRoundTrip(m);
    DecimalRoundTrip(n);
  }

  /** `strconv.FormatInt(v, 10)`. */
  function FormatInt(v: int): (s: string)
    ensures |s| >= 1
  {
    if v < 0 then "-" + Decimal(-v) else Decimal(v)
  }

  function HexDigit(d: nat): char
    requires d < 16
  {
    if d < 10 then DigitChar(d) else ((('a' as int) + d - 10) as char)
  }

  predicate IsHex(c: char)
  {
    ('0' <= c <= '9') || ('a' <= c <= 'f') || ('A' <= c <= 'F')
  }

  function HexValue(c: char): nat
    requires IsHex(c)
  {
    if '0' <= c <= '9' then c as int - '0' as int
    else if 'a' <= c <= 'f' then c as int - 'a' as int + 10
    else c as int - 'A' as int + 10
  }

  /** A control character, written as an escape by `Quote`. */
  predicate IsControl(c: char)
  {
    c < ' ' || c as int == 0x7F
  }

  /** How `Quote` writes one character inside the double quotes. */
  function EscapeChar(c: char): string
  {
    if c == '"' then "\\\""
    else if c == '\\' then "\\\\"
    else if c as int == 7 then "\\a"
    else if c as int == 8 then "\\b"
    else if c as int == 12 then "\\f"
    else if c == '\n' then "\\n"
    else if c == '\r' then "\\r"
    else if c == '\t' then "\\t"
    else if c as int == 11 then "\\v"
    else if IsControl(c) then "\\x" + [HexDigit(c as int / 16), HexDigit(c as int % 16)]
    else [c]
  }

  function QuoteBody(s: string): string
  {
    if |s| == 0 then "" else EscapeChar(s[0]) + QuoteBody(s[1..])
  }

  /** `strconv.Quote(s)`. */
  function Quote(s: string): (q: string)
    ensures |q| >= 2 && q[0] == '"' && q[|q| - 1] == '"'
  {
    "\"" + QuoteBody(s) + "\""
  }

  /** `strconv.QuoteRune(r)`; a value that is not a Unicode scalar value is quoted as U+FFFD. */
  function QuoteRune(r: int): (q: string)
    ensures |q| >= 3 && q[0] == '\'' && q[|q| - 1] == '\''
  {
    var c := if 0 <= r < 0xD800 || 0xE000 <= r < 0x11_0000 then r as char else '�';
    "'" + (if c == '\'' then "\\'" else if c == '"' then "\"" else EscapeChar(c)) + "'"
  }

  /** The single-character escapes of a double-quoted Go string and what they stand for. */
  function SimpleEscape(e: char): Option<char>
  {
    if e == 'a' then Some(7 as char)
    else if e == 'b' then Some(8 as char)
    else if e == 'f' then Some(12 as char)
    else if e == 'n' then Some('\n')
    else if e == 'r' then Some('\r')
    else if e == 't' then Some('\t')
    else if e == 'v' then Some(11 as char)
    else if e == '\\' then Some('\\')
    else if e == '"' then Some('"')
    else None
  }

  function Prepend(c: char, r: Option<string>): Option<string>
  {
    match r
    case None => None
    case Some(t) => Some([c] + t)
  }

  /** The text between the double quotes, with its escapes decoded; `None` if it is malformed. */
  function UnescapeBody(b: string): Option<string>
    decreases |b|
  {
    if |b| == 0 then Some("")
    else if b[0] == '"' || b[0] == '\n' then None
    else if b[0] != '\\' then Prepend(b[0], UnescapeBody(b[1..]))
    else if |b| < 2 then None
    else if SimpleEscape(b[1]).Some? then Prepend(SimpleEscape(b[1]).value, UnescapeBody(b[2..]))
    else if b[1] == 'x' && |b| >= 4 && IsHex(b[2]) && IsHex(b[3]) then
      Prepend((HexValue(b[2]) * 16 + HexValue(b[3])) as char, UnescapeBody(b[4..]))
    else None
  }

  function RemoveCR(s: string): string
  {
    if |s| == 0 then "" else (if s[0] == '\r' then "" else [s[0]]) + RemoveCR(s[1..])
  }

  /**
    `strconv.Unquote(s)` for double-quoted and back-quoted strings: `None`
    stands for the error result.
   */
  function Unquote(s: string): Option<string>
  {
    if |s| >= 2 && s[0] == '"' && s[|s| - 1] == '"' then UnescapeBody(s[1..|s| - 1])
    else if |s| >= 2 && s[0] == '`' && s[|s| - 1] == '`' && '`' !in s[1..|s| - 1] then Some(RemoveCR(s[1..|s| - 1]))
    else None
  }

  lemma EscapeCharDecodes(c: char, rest: string)
    ensures UnescapeBody(EscapeChar(c) + rest) == Prepend(c, UnescapeBody(rest))
  {
    var e := EscapeChar(c);
    if IsControl(c) && SimpleEscape(e[1]).None? && c != '\\' && c != '"' {
      var hi := c as int / 16;
      var lo := c as int % 16;
      assert e == ['\\', 'x', HexDigit(hi), HexDigit(lo)];
      assert HexValue(HexDigit(hi)) == hi;
      assert HexValue(HexDigit(lo)) == lo;
      assert (e + rest)[4..] == rest;
    } else if |e| == 2 {
      assert (e + rest)[2..] == rest;
    } else {
      assert (e + rest)[1..] == rest;
    }
  }

  /** `Unquote` undoes `Quote`. */
  lemma {:induction false} UnquoteQuote(s: string)
    ensures Unquote(Quote(s)) == Some(s)
  {
    QuoteBodyDecodes(s);
    var q := Quote(s);
    assert q[1..|q| - 1] == QuoteBody(s);
  }

  lemma {:induction false} QuoteBodyDecodes(s: string)
    ensures UnescapeBody(QuoteBody(s)) == Some(s)
    decreases |s|
  {
    if |s| > 0 {
      QuoteBodyDecodes(s[1..]);
      EscapeCharDecodes(s[0], QuoteBody(s[1..]));
      assert [s[0]] + s[1..] == s;
    }
  }

  /** `Quote` adds no space: a string without spaces quotes to one without spaces. */
  lemma {:induction false} QuoteNoSpace(s: string)
    requires ' ' !in s
    ensures ' ' !in Quote(s)
    decreases |s|
  {
    QuoteBodyNoSpace(s);
  }

  lemma {:induction false} QuoteBodyNoSpace(s: string)
    requires ' ' !in s
    ensures ' ' !in QuoteBody(s)
    decreases |s|
  {
    if |s| > 0 {
      assert s[0] != ' ';
      assert ' ' !in s[1..] by {
        forall k | 0 <= k < |s[1..]| ensures s[1..][k] != ' ' {
          assert s[1..][k] == s[k + 1];
        }
      }
      QuoteBodyNoSpace(s[1..]);
    }
  }
}
