/**
 * The text of the persisted port record: how `read_port_from_file` turns the
 * file contents into a port (`trim` followed by Rust's `u16` parser) and how
 * `save_port_to_file` renders a port (`u16::to_string`).
 */
module PortText {
  import opened Wrappers

  const MAX_PORT: int := 65535

  /** A value of Rust's `u16`. */
  type Port = n: int | 0 <= n <= MAX_PORT

  // ---------------------------------------------------------------------------
  // trim

  /** `char::is_whitespace`: the code points with the Unicode White_Space property. */
  predicate IsWhitespace(c: char) {
    var n := c as int;
    (0x09 <= n <= 0x0D) || n == 0x20 || n == 0x85 || n == 0xA0 || n == 0x1680 ||
    (0x2000 <= n <= 0x200A) || n == 0x2028 || n == 0x2029 || n == 0x202F ||
    n == 0x205F || n == 0x3000
  }

  predicate AllWhitespace(s: string) {
    forall k :: 0 <= k < |s| ==> IsWhitespace(s[k])
  }

  /** `str::trim_start`: the longest suffix of `s` that does not begin with whitespace. */
  function TrimStart(s: string): (r: string)
    ensures |r| <= |s| && r == s[|s| - |r|..]
    ensures AllWhitespace(s[..|s| - |r|])
    ensures r == [] || !IsWhitespace(r[0])
  {
    if s != [] && IsWhitespace(s[0]) then
      var r := TrimStart(s[1..]);
      assert s[..|s| - |r|] == [s[0]] + s[1..][..|s| - 1 - |r|];
      r
    else
      s
  }

  /** `str::trim_end`: the longest prefix of `s` that does not end with whitespace. */
  function TrimEnd(s: string): (r: string)
    ensures |r| <= |s| && r == s[..|r|]
    ensures AllWhitespace(s[|r|..])
    ensures r == [] || !IsWhitespace(r[|r| - 1])
  {
    if s != [] && IsWhitespace(s[|s| - 1]) then
      var r := TrimEnd(s[..|s| - 1]);
      assert s[|r|..] == s[..|s| - 1][|r|..] + [s[|s| - 1]];
      r
    else
      s
  }

  /** `str::trim`: whitespace removed from both ends. */
  function Trim(s: string): (r: string)
    ensures |r| <= |s|
    ensures r == [] || (!IsWhitespace(r[0]) && !IsWhitespace(r[|r| - 1]))
    ensures r == [] <==> AllWhitespace(s)
  {
    TrimEnd(TrimStart(s))
  }

  lemma {:induction false} TrimStartSkipsWhitespace(pre: string, rest: string)
    requires AllWhitespace(pre)
    requires rest == [] || !IsWhitespace(rest[0])
    ensures TrimStart(pre + rest) == rest
  {
    if pre != [] {
      assert (pre + rest)[1..] == pre[1..] + rest;
      TrimStartSkipsWhitespace(pre[1..], rest);
    }
  }

  lemma {:induction false} TrimEndSkipsWhitespace(rest: string, post: string)
    requires AllWhitespace(post)
    requires rest == [] || !IsWhitespace(rest[|rest| - 1])
    ensures TrimEnd(rest + post) == rest
  {
    if post != [] {
      assert (rest + post)[..|rest + post| - 1] == rest + post[..|post| - 1];
      TrimEndSkipsWhitespace(rest, post[..|post| - 1]);
    }
  }

  /** Whitespace around a text that neither begins nor ends with whitespace is removed, and only that. */
  lemma TrimPadded(pre: string, t: string, post: string)
    requires AllWhitespace(pre) && AllWhitespace(post)
    requires t != [] && !IsWhitespace(t[0]) && !IsWhitespace(t[|t| - 1])
    ensures Trim(pre + t + post) == t
  {
    assert pre + t + post == pre + (t + post);
    TrimStartSkipsWhitespace(pre, t + post);
    TrimEndSkipsWhitespace(t, post);
  }

  // ---------------------------------------------------------------------------
  // decimal digits

  predicate IsDigit(c: char) {
    '0' <= c <= '9'
  }

  predicate AllDigits(s: string) {
    forall k :: 0 <= k < |s| ==> IsDigit(s[k])
  }

  function DigitValue(c: char): (d: nat)
    requires IsDigit(c)
    ensures d < 10
  {
    c as int - '0' as int
  }

  function DigitChar(d: nat): (c: char)
    requires d < 10
    ensures IsDigit(c) && DigitValue(c) == d
  {
    ('0' as int + d) as char
  }

  /** The value of a string of decimal digits, most significant first. */
  function DecimalValue(s: string): nat
    requires AllDigits(s)
  {
    if s == [] then 0 else DecimalValue(s[..|s| - 1]) * 10 + DigitValue(s[|s| - 1])
  }

  lemma DigitNotWhitespace(c: char)
    requires IsDigit(c)
    ensures !IsWhitespace(c)
  {
    assert 0x30 <= c as int <= 0x39;
  }

  // ---------------------------------------------------------------------------
  // parse::<u16>

  /**
   * `<u16 as FromStr>::from_str`: an optional leading `+`, then one or more
   * ASCII digits whose value fits in 16 bits. A `-` is never accepted for an
   * unsigned type; any failure is `None`.
   */
  function ParsePort(s: string): (r: Option<Port>)
    ensures r.Some? ==> s != [] && (s[0] == '+' || IsDigit(s[0])) && IsDigit(s[|s| - 1])
    ensures s != [] && s[0] == '-' ==> r.None?
  {
    var digits := if s != [] && s[0] == '+' then s[1..] else s;
    if digits == [] || !AllDigits(digits) then None
    else if DecimalValue(digits) <= MAX_PORT then Some(DecimalValue(digits))
    else None
  }

  // ---------------------------------------------------------------------------
  // to_string

  /** `to_string` of an unsigned integer: its decimal digits, without leading zeros. */
  function FormatDecimal(n: nat): (s: string)
    ensures s != [] && AllDigits(s)
    ensures s[0] == '0' ==> n == 0 && |s| == 1
  {
    if n < 10 then [DigitChar(n)] else FormatDecimal(n / 10) + [DigitChar(n % 10)]
  }

  /** The text `save_port_to_file` writes. */
  function FormatPort(p: Port): (r: string)
    ensures 1 <= |r| <= 5 && AllDigits(r)
    ensures r[0] == '0' ==> p == 0
  {
    FormatLength(p, 5);
    FormatDecimal(p)
  }

  function Pow10(k: nat): (r: nat)
    ensures r >= 1
  {
    if k == 0 then 1 else 10 * Pow10(k - 1)
  }

  /** A number below 10^k is written with at most k digits. */
  lemma {:induction false} FormatLength(n: nat, k: nat)
    requires k >= 1 && n < Pow10(k)
    ensures |FormatDecimal(n)| <= k
  {
    if n >= 10 {
      assert n / 10 < Pow10(k - 1);
      FormatLength(n / 10, k - 1);
    }
  }

  // ---------------------------------------------------------------------------
  // round trips

  lemma {:induction false} DecimalValueOfFormat(n: nat)
    ensures DecimalValue(FormatDecimal(n)) == n
  {
    if n >= 10 {
      var s := FormatDecimal(n);
      assert s[..|s| - 1] == FormatDecimal(n / 10);
      DecimalValueOfFormat(n / 10);
    }
  }

  /** Digit text without a redundant leading zero is exactly the rendering of its value. */
  lemma {:induction false} FormatOfDecimalValue(s: string)
    requires s != [] && AllDigits(s)
    requires s[0] == '0' ==> |s| == 1
    ensures FormatDecimal(DecimalValue(s)) == s
  {
    if |s| > 1 {
      var prefix := s[..|s| - 1];
      LeadingDigitBound(prefix);
      FormatOfDecimalValue(prefix);
      var v := DecimalValue(s);
      assert v / 10 == DecimalValue(prefix) && v % 10 == DigitValue(s[|s| - 1]);
    }
  }

  /** A digit string is worth at least its leading digit. */
  lemma {:induction false} LeadingDigitBound(s: string)
    requires s != [] && AllDigits(s)
    ensures DecimalValue(s) >= DigitValue(s[0])
  {
    if |s| > 1 {
      LeadingDigitBound(s[..|s| - 1]);
    }
  }

  /** A leading zero does not change the value of a digit string. */
  lemma {:induction false} LeadingZeroValue(s: string)
    requires AllDigits(s)
    ensures AllDigits("0" + s) && DecimalValue("0" + s) == DecimalValue(s)
  {
    if s != [] {
      assert ("0" + s)[..|s|] == "0" + s[..|s| - 1];
      LeadingZeroValue(s[..|s| - 1]);
    }
  }

  /** Parsing the text written for a port gives the port back. */
  lemma ParseFormatRoundTrip(p: Port)
    ensures ParsePort(FormatPort(p)) == Some(p)
  {
    var s := FormatPort(p);
    DecimalValueOfFormat(p);
    assert IsDigit(s[0]);
  }

  /** Digit text has no surrounding whitespace, so trimming leaves it as it is. */
  lemma TrimDigits(s: string)
    requires s != [] && AllDigits(s)
    ensures Trim(s) == s
  {
    DigitNotWhitespace(s[0]);
    DigitNotWhitespace(s[|s| - 1]);
    assert TrimStart(s) == s;
  }

  /**
   * Conversely, the only text `save_port_to_file` could have written for a
   * parsed value is the canonical one: plain digits, no redundant leading zero.
   */
  lemma FormatParseRoundTrip(s: string, p: Port)
    requires ParsePort(s) == Some(p)
    requires s[0] != '+' && (s[0] == '0' ==> |s| == 1)
    ensures FormatPort(p) == s
  {
    FormatOfDecimalValue(s);
  }

  /** Leading zeros do not change the parsed value (nor whether the text parses). */
  lemma ParseIgnoresLeadingZero(s: string)
    requires s != [] && s[0] != '+'
    ensures ParsePort("0" + s) == ParsePort(s)
  {
    if AllDigits(s) {
      LeadingZeroValue(s);
    } else {
      var k :| 0 <= k < |s| && !IsDigit(s[k]);
      assert !IsDigit(("0" + s)[k + 1]);
    }
  }

  /** A `+` sign is accepted once and does not change the value. */
  lemma ParsePlusSign(s: string)
    requires s == [] || s[0] != '+'
    ensures ParsePort("+" + s) == ParsePort(s)
  {
    assert ("+" + s)[1..] == s;
  }

  /** Neither a `-` sign, nor an empty text, nor a value above 65535 parses. */
  lemma ParseRejects(s: string)
    ensures ParsePort("") == None
    ensures ParsePort("+") == None
    ensures ParsePort("-" + s) == None
    ensures ParsePort("65536") == None
    ensures ParsePort("65535") == Some(65535)
  {
    assert !IsDigit(("-" + s)[0]);
    assert "65535"[..4] == "6553" && "6553"[..3] == "655" && "655"[..2] == "65" && "65"[..1] == "6";
    assert "65536"[..4] == "6553";
  }

  /** Surrounding whitespace and leading zeros: `"  0080\n"` loads as port 80. */
  lemma PaddedTextExample()
    ensures ParsePort(Trim("  0080\n")) == Some(80)
  {
    PaddedTextTrims();
    ParseLeadingZerosEighty();
  }

  lemma ParseLeadingZerosEighty()
    ensures ParsePort("0080") == Some(80)
  {
    var t1, t2 := "080", "80";
    ParseIgnoresLeadingZero(t1);
    ParseIgnoresLeadingZero(t2);
    assert "0" + t1 == "0080" && "0" + t2 == t1;
    ParseEighty();
  }

  lemma PaddedTextTrims()
    ensures Trim("  0080\n") == "0080"
  {
    var pre, t, post := "  ", "0080", "\n";
    assert AllWhitespace(pre) by { assert pre[0] == ' ' && pre[1] == ' '; }
    assert AllWhitespace(post) by { assert post[0] == '\n'; }
    DigitNotWhitespace(t[0]);
    TrimPadded(pre, t, post);
    assert pre + t + post == "  0080\n";
  }

  lemma ParseEighty()
    ensures ParsePort("80") == Some(80)
  {
    assert "80"[..1] == "8" && "8"[..0] == "";
    assert DecimalValue("8") == 8;
  }
}
