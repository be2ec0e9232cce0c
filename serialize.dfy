/** The two string conversions of src/serialize.rs: `as_non_empty_string`,
    which trims a query string and stands a single space in for an empty
    one, and `StringOrU64`, which reads an identifier the server sends either
    as a string or as a `u64` and keeps it as a string. */
module Serialize {
  import opened Core

  /** Rust's `char::is_whitespace`: the characters with the Unicode
      `White_Space` property. */
  predicate IsWhitespace(c: char)
  {
    || '\t' <= c <= '\r'
    || c == ' '
    || c == '\U{0085}'
    || c == '\U{00A0}'
    || c == '\U{1680}'
    || '\U{2000}' <= c <= '\U{200A}'
    || c == '\U{2028}'
    || c == '\U{2029}'
    || c == '\U{202F}'
    || c == '\U{205F}'
    || c == '\U{3000}'
  }

  /** `str::trim_start`: the longest suffix that does not start with
      whitespace. */
  function TrimStart(s: string): (r: string)
    ensures |r| <= |s| && r == s[|s| - |r|..]
    ensures forall k :: 0 <= k < |s| - |r| ==> IsWhitespace(s[k])
    ensures |r| > 0 ==> !IsWhitespace(r[0])
  {
    if |s| > 0 && IsWhitespace(s[0]) then TrimStart(s[1..]) else s
  }

  /** `str::trim_end`: the longest prefix that does not end with
      whitespace. */
  function TrimEnd(s: string): (r: string)
    ensures |r| <= |s| && r == s[..|r|]
    ensures forall k :: |r| <= k < |s| ==> IsWhitespace(s[k])
    ensures |r| > 0 ==> !IsWhitespace(r[|r| - 1])
  {
    if |s| > 0 && IsWhitespace(s[|s| - 1]) then TrimEnd(s[..|s| - 1]) else s
  }

  /** `str::trim`. */
  function Trim(s: string): string
  {
    TrimEnd(TrimStart(s))
  }

  /** `trim` cuts whitespace only, and all of it, from both ends: the result
      is the slice `s[i..i + |Trim(s)|]` where everything before `i` and
      after the slice is whitespace, and the slice neither starts nor ends
      with whitespace. */
  lemma TrimIsMaximalSlice(s: string)
    ensures var r, i := Trim(s), |s| - |TrimStart(s)|;
      && i + |r| <= |s| && r == s[i..i + |r|]
      && (forall k :: 0 <= k < i ==> IsWhitespace(s[k]))
      && (forall k :: i + |r| <= k < |s| ==> IsWhitespace(s[k]))
      && (|r| > 0 ==> !IsWhitespace(r[0]) && !IsWhitespace(r[|r| - 1]))
  {
    var t, r, i := TrimStart(s), Trim(s), |s| - |TrimStart(s)|;
    assert forall k :: i + |r| <= k < |s| ==> s[k] == t[k - i];
    if |r| > 0 {
      assert r[0] == t[0];
    }
  }

  /** A string trims to nothing exactly when it is all whitespace. */
  lemma TrimEmptyIffBlank(s: string)
    ensures |Trim(s)| == 0 <==> forall k :: 0 <= k < |s| ==> IsWhitespace(s[k])
  {
  }

  /** Trimming a trimmed string changes nothing. */
  lemma TrimIdempotent(s: string)
    ensures Trim(Trim(s)) == Trim(s)
  {
    var r := Trim(s);
    TrimIsMaximalSlice(s);
    if |r| > 0 {
      assert TrimStart(r) == r;
      assert TrimEnd(r) == r;
    }
  }

  /** `as_non_empty_string`: the string handed to the serializer. A blank
      input, empty or all whitespace, becomes a single space; any other is
      trimmed, and then never empty. */
  function AsNonEmptyString(s: string): (r: string)
    ensures |r| > 0
    ensures r == " " <==> forall k :: 0 <= k < |s| ==> IsWhitespace(s[k])
    ensures r != " " ==> r == Trim(s) && !IsWhitespace(r[0]) && !IsWhitespace(r[|r| - 1])
  {
    TrimEmptyIffBlank(s);
    TrimIsMaximalSlice(s);
    var trimmed := Trim(s);
    if |trimmed| == 0 then " " else trimmed
  }

  /** Serializing an already serialized string gives it back. */
  lemma AsNonEmptyStringIdempotent(s: string)
    ensures AsNonEmptyString(AsNonEmptyString(s)) == AsNonEmptyString(s)
  {
    var r := AsNonEmptyString(s);
    if r != " " {
      TrimIdempotent(s);
      TrimEmptyIffBlank(r);
    }
  }

  /** The decimal digit for `d`. */
  function Digit(d: nat): (c: char)
    requires d < 10
    ensures '0' <= c <= '9' && c as int - '0' as int == d
  {
    ('0' as int + d) as char
  }

  /** `u64::to_string`: the decimal numeral of `n`, with no leading zero. */
  function DecimalString(n: nat): (r: string)
    ensures |r| > 0 && forall k :: 0 <= k < |r| ==> '0' <= r[k] <= '9'
    ensures |r| > 1 ==> r[0] != '0'
    ensures r[0] == '0' ==> n == 0
  {
    if n < 10 then [Digit(n)] else DecimalString(n / 10) + [Digit(n % 10)]
  }

  /** Reads a decimal numeral back; `None` for an empty string or one
      holding a character other than a digit. */
  function ParseDecimal(s: string): (r: Option<nat>)
    ensures r.Some? <==> |s| > 0 && forall k :: 0 <= k < |s| ==> '0' <= s[k] <= '9'
  {
    if |s| == 0 || !('0' <= s[|s| - 1] <= '9') then None
    else
      var d := s[|s| - 1] as int - '0' as int;
      if |s| == 1 then Some(d)
      else
        match ParseDecimal(s[..|s| - 1])
        case None => None
        case Some(m) => Some(m * 10 + d)
  }

  /** The numeral of `n` reads back as `n`. */
  lemma {:induction false} DecimalRoundTrip(n: nat)
    ensures ParseDecimal(DecimalString(n)) == Some(n)
  {
    if n >= 10 {
      DecimalRoundTrip(n / 10);
      var s := DecimalString(n);
      assert s[..|s| - 1] == DecimalString(n / 10);
    }
  }

  /** Two numbers have the same numeral only if they are equal. */
  lemma DecimalInjective(m: nat, n: nat)
    ensures DecimalString(m) == DecimalString(n) <==> m == n
  {
    DecimalRoundTrip(m);
    DecimalRoundTrip(n);
  }

  /** A numeral with no leading zero is the one `DecimalString` writes: so
      reading back as `n` with no leading zero pins a string down to
      `n.to_string()`. */
  lemma {:induction false} CanonicalNumeralUnique(s: string, n: nat)
    requires ParseDecimal(s) == Some(n)
    requires |s| > 1 ==> s[0] != '0'
    ensures s == DecimalString(n)
    decreases |s|
  {
    var d := s[|s| - 1] as int - '0' as int;
    if |s| > 1 {
      var prefix := s[..|s| - 1];
      var m := ParseDecimal(prefix).value;
      assert n == m * 10 + d;
      CanonicalNumeralUnique(prefix, m);
      assert n / 10 == m && n % 10 == d;
      assert s == prefix + [s[|s| - 1]];
    }
  }

  /** What `deserialize_any` hands the visitor: a string or a `u64`. */
  datatype Token = Str(text: string) | U64(number: u64)

  /** `ToStringVisitor`: `visit_str` and `visit_string` keep the text as it
      is; `visit_u64` writes the number in decimal. */
  function Visit(t: Token): (r: string)
    ensures t.Str? ==> r == t.text
    ensures t.U64? ==> ParseDecimal(r) == Some(t.number as nat) && (|r| > 1 ==> r[0] != '0')
  {
    match t
    case Str(text) => text
    case U64(number) => DecimalRoundTrip(number as nat); DecimalString(number as nat)
  }

  /** `serialize_as`: the string is written as it is, so reading it back as
      a string token gives the same string. */
  function SerializeAs(source: string): (r: Token)
    ensures Visit(r) == source
  {
    Str(source)
  }
}
