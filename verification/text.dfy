/** Snowflake ids and the text and integer conversions of the .NET runtime
    that the modelled code relies on: invariant decimal formatting,
    `TryParse` with `NumberStyles.Integer`, `Char.IsWhiteSpace`,
    `ToLowerInvariant` on keys, unchecked integer casts and `UInt64.GetHashCode`. */
module Text {
  import opened Wrappers

  const UlongMax: int := 0xFFFF_FFFF_FFFF_FFFF
  const IntMin: int := -0x8000_0000
  const IntMax: int := 0x7FFF_FFFF

  /** A 64-bit unsigned platform id (`ulong`). */
  type Snowflake = x: int | 0 <= x <= 0xFFFF_FFFF_FFFF_FFFF

  /** A paging cursor `last == 0 ? null : (ulong?)last`: 0 stands for "no cursor". */
  function Cursor(last: Snowflake): Option<Snowflake> {
    if last == 0 then None else Some(last)
  }

  // ---------------------------------------------------------------------
  // Decimal formatting: `ulong.ToString(CultureInfo.InvariantCulture)`

  predicate IsDigit(c: char) {
    '0' <= c <= '9'
  }

  predicate AllDigits(s: string) {
    forall i :: 0 <= i < |s| ==> IsDigit(s[i])
  }

  function DigitChar(d: int): (c: char)
    requires 0 <= d < 10
    ensures IsDigit(c)
  {
    (48 + d) as char
  }

  /** The invariant-culture decimal rendering of a non-negative integer. */
  function DecimalString(n: nat): (s: string)
    ensures |s| >= 1 && AllDigits(s)
    decreases n
  {
    if n < 10 then [DigitChar(n)] else DecimalString(n / 10) + [DigitChar(n % 10)]
  }

  /** The value of a string of decimal digits, most significant first. */
  function DigitsValue(s: string): nat
    requires AllDigits(s)
  {
    if s == [] then 0 else 10 * DigitsValue(s[..|s| - 1]) + (s[|s| - 1] as int - 48)
  }

  /** Reading back a rendered number gives the number. */
  lemma {:induction false} DecimalRoundTrip(n: nat)
    ensures DigitsValue(DecimalString(n)) == n
    decreases n
  {
    if n >= 10 {
      var s := DecimalString(n);
      assert s[..|s| - 1] == DecimalString(n / 10);
      DecimalRoundTrip(n / 10);
    }
  }

  /** Distinct numbers render differently. */
  lemma DecimalInjective(a: nat, b: nat)
    requires DecimalString(a) == DecimalString(b)
    ensures a == b
  {
    DecimalRoundTrip(a);
    DecimalRoundTrip(b);
  }

  // ---------------------------------------------------------------------
  // `TryParse(s, NumberStyles.Integer, CultureInfo.InvariantCulture, out v)`

  /** White space that `NumberStyles.AllowLeadingWhite`/`AllowTrailingWhite` skip. */
  predicate IsNumberWhite(c: char) {
    c == ' ' || ('\t' <= c <= '\r')
  }

  function TrimStart(s: string): (r: string)
    ensures |r| <= |s| && r == s[|s| - |r|..]
    ensures r != [] ==> !IsNumberWhite(r[0])
  {
    if s != [] && IsNumberWhite(s[0]) then TrimStart(s[1..]) else s
  }

  function TrimEnd(s: string): (r: string)
    ensures |r| <= |s| && r == s[..|r|]
    ensures r != [] ==> !IsNumberWhite(r[|r| - 1])
  {
    if s != [] && IsNumberWhite(s[|s| - 1]) then TrimEnd(s[..|s| - 1]) else s
  }

  /** .NET number parsing accepts trailing NUL characters after the number. */
  function TrimTrailingNuls(s: string): (r: string)
    ensures |r| <= |s| && r == s[..|r|]
    ensures r != [] ==> r[|r| - 1] != '\0'
  {
    if s != [] && s[|s| - 1] == '\0' then TrimTrailingNuls(s[..|s| - 1]) else s
  }

  /** `TryParse` with `NumberStyles.Integer` into the range `lo..hi`: surrounding
      white space, one optional sign, at least one digit, and a value in range;
      anything else (including a value that is not a string, `None`) fails. */
  function ParseInteger(v: Option<string>, lo: int, hi: int): (r: Option<int>)
    ensures r.Some? ==> lo <= r.value <= hi
  {
    match v
    case None => None
    case Some(s) =>
      var t := TrimStart(TrimEnd(TrimTrailingNuls(s)));
      if t == [] then None
      else
        var negative := t[0] == '-';
        var body := if t[0] == '-' || t[0] == '+' then t[1..] else t;
        if body == [] || !AllDigits(body) then None
        else
          var magnitude: int := DigitsValue(body);
          var value := if negative then -magnitude else magnitude;
          if lo <= value <= hi then Some(value) else None
  }

  /** `out` value of a `TryParse` whose success flag is ignored: 0 on failure. */
  function ParseOrZero(v: Option<string>, lo: int, hi: int): int {
    ParseInteger(v, lo, hi).GetOr(0)
  }

  /** A rendered number in range parses back to itself. */
  lemma ParseDecimalRoundTrip(n: nat, lo: int, hi: int)
    requires lo <= n <= hi
    ensures ParseInteger(Some(DecimalString(n)), lo, hi) == Some(n)
  {
    var s := DecimalString(n);
    assert TrimTrailingNuls(s) == s;
    assert TrimEnd(s) == s;
    assert TrimStart(s) == s;
    DecimalRoundTrip(n);
  }

  predicate IsNumberChar(c: char) {
    IsDigit(c) || IsNumberWhite(c) || c == '+' || c == '-' || c == '\0'
  }

  /** A successful parse only ever reads digits, one sign, white space and
      trailing NULs: any other character makes the parse fail. */
  lemma ParseRejectsForeignChars(s: string, lo: int, hi: int, i: int)
    requires 0 <= i < |s| && !IsNumberChar(s[i])
    ensures ParseInteger(Some(s), lo, hi) == None
  {
    var z := TrimTrailingNuls(s);
    var e := TrimEnd(z);
    var t := TrimStart(e);
    if i < |z| {
      if i < |e| {
        if i >= |e| - |t| {
          var j := i - (|e| - |t|);
          assert t[j] == s[i];
          if t != [] && (t[0] == '-' || t[0] == '+') {
            assert j > 0;
            assert t[1..][j - 1] == s[i];
          }
        } else {
          TrimStartPrefixIsWhite(e, i);
        }
      } else {
        TrimEndSuffixIsWhite(z, i);
      }
    } else {
      TrimNulsSuffixIsNul(s, i);
    }
  }

  lemma {:induction false} TrimStartPrefixIsWhite(s: string, i: int)
    requires 0 <= i < |s| - |TrimStart(s)|
    ensures IsNumberWhite(s[i])
  {
    if s != [] && IsNumberWhite(s[0]) && i > 0 {
      TrimStartPrefixIsWhite(s[1..], i - 1);
    }
  }

  lemma {:induction false} TrimEndSuffixIsWhite(s: string, i: int)
    requires |TrimEnd(s)| <= i < |s|
    ensures IsNumberWhite(s[i])
  {
    if s != [] && IsNumberWhite(s[|s| - 1]) && i < |s| - 1 {
      TrimEndSuffixIsWhite(s[..|s| - 1], i);
    }
  }

  lemma {:induction false} TrimNulsSuffixIsNul(s: string, i: int)
    requires |TrimTrailingNuls(s)| <= i < |s|
    ensures s[i] == '\0'
  {
    if s != [] && s[|s| - 1] == '\0' && i < |s| - 1 {
      TrimNulsSuffixIsNul(s[..|s| - 1], i);
    }
  }

  // ---------------------------------------------------------------------
  // `string.IsNullOrWhiteSpace` and `ToLowerInvariant`

  /** `Char.IsWhiteSpace`: the Unicode space, line and paragraph separators
      and the control characters U+0009..U+000D and U+0085. */
  predicate IsWhiteSpace(c: char) {
    ('\t' <= c <= '\r') || c == ' ' || c == '\U{85}' || c == '\U{A0}' || c == '\U{1680}'
    || ('\U{2000}' <= c <= '\U{200A}') || c == '\U{2028}' || c == '\U{2029}'
    || c == '\U{202F}' || c == '\U{205F}' || c == '\U{3000}'
  }

  predicate IsNullOrWhiteSpace(s: Option<string>) {
    s.None? || forall i :: 0 <= i < |s.value| ==> IsWhiteSpace(s.value[i])
  }

  function AsciiLower(c: char): char {
    if 'A' <= c <= 'Z' then (c as int + 32) as char else c
  }

  /** `ToLowerInvariant` restricted to ASCII letters. */
  function ToLower(s: string): (r: string)
    ensures |r| == |s|
    ensures forall i :: 0 <= i < |s| ==> r[i] == AsciiLower(s[i])
  {
    seq(|s|, i requires 0 <= i < |s| => AsciiLower(s[i]))
  }

  // ---------------------------------------------------------------------
  // Unchecked integer conversions and hashing

  /** An unchecked conversion to a 32-bit signed integer (`(int)x`). */
  function Int32Wrap(n: int): (r: int)
    ensures IntMin <= r <= IntMax
    ensures (r - n) % 0x1_0000_0000 == 0
  {
    (n - IntMin) % 0x1_0000_0000 + IntMin
  }

  /** An unchecked conversion to a 64-bit signed integer (`(long)x`). */
  function Int64Wrap(n: int): (r: int)
    ensures -0x8000_0000_0000_0000 <= r <= 0x7FFF_FFFF_FFFF_FFFF
    ensures (r - n) % 0x1_0000_0000_0000_0000 == 0
  {
    (n + 0x8000_0000_0000_0000) % 0x1_0000_0000_0000_0000 - 0x8000_0000_0000_0000
  }

  /** `UInt64.GetHashCode`: the low and high 32-bit halves exclusive-or'ed,
      read as a signed 32-bit integer. */
  function UlongHash(x: Snowflake): (h: int)
    ensures IntMin <= h <= IntMax
  {
    var low := (x % 0x1_0000_0000) as bv32;
    var high := (x / 0x1_0000_0000) as bv32;
    Int32Wrap((low ^ high) as int)
  }
}
