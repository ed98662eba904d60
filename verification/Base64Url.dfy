/** Base64 text, its unpadded URL-safe form, and the way back. */
module Base64Url {
  import opened Tables

  type Byte = n: nat | n < 256

  type Digit = n: nat | n < 64

  predicate PlainDigit(c: char) {
    c != '=' && c != '-' && c != '_' && c != '.'
  }

  predicate UrlSafe(c: char) {
    c != '=' && c != '+' && c != '/' && c != '.'
  }

  function DigitChar(d: Digit): (c: char)
    ensures PlainDigit(c)
  {
    if d < 26 then (('A' as int) + d) as char
    else if d < 52 then (('a' as int) + d - 26) as char
    else if d < 62 then (('0' as int) + d - 52) as char
    else if d == 62 then '+' else '/'
  }

  function DigitValue(c: char): (d: Option<Digit>)
    ensures d.Some? ==> DigitChar(d.value) == c
  {
    if 'A' <= c <= 'Z' then Some((c as int) - ('A' as int))
    else if 'a' <= c <= 'z' then Some((c as int) - ('a' as int) + 26)
    else if '0' <= c <= '9' then Some((c as int) - ('0' as int) + 52)
    else if c == '+' then Some(62) else if c == '/' then Some(63) else None
  }

  lemma DigitValueChar(d: Digit)
    ensures DigitValue(DigitChar(d)) == Some(d)
  {
  }

  /** The four digits of three bytes; a missing byte counts as zero. */
  function Group(a: Byte, b: Byte, c: Byte): string {
    [DigitChar(a / 4), DigitChar(a % 4 * 16 + b / 16), DigitChar(b % 16 * 4 + c / 64), DigitChar(c % 64)]
  }

  /** `buffer.toString('base64')`. */
  function Encode(bytes: seq<Byte>): string {
    if bytes == [] then ""
    else if |bytes| == 1 then Group(bytes[0], 0, 0)[..2] + "=="
    else if |bytes| == 2 then Group(bytes[0], bytes[1], 0)[..3] + "="
    else Group(bytes[0], bytes[1], bytes[2]) + Encode(bytes[3..])
  }

  /** RFC 4648 decoding; `None` on text that no byte string encodes to. */
  function Decode(text: string): Option<seq<Byte>> {
    if text == "" then Some([])
    else if |text| < 4 then None
    else
      var a, b := DigitValue(text[0]), DigitValue(text[1]);
      var c, d := DigitValue(text[2]), DigitValue(text[3]);
      if a.None? || b.None? then None
      else
        var first := a.value * 4 + b.value / 16;
        if text[2..] == "==" then Some([first])
        else if c.None? then None
        else
          var second := b.value % 16 * 16 + c.value / 4;
          if text[3..] == "=" then Some([first, second])
          else if d.None? then None
          else
            var rest := Decode(text[4..]);
            if rest.None? then None else Some([first, second, c.value % 4 * 64 + d.value] + rest.value)
  }

  lemma GroupBytes(a: Byte, b: Byte, c: Byte)
    ensures var d0, d1, d2, d3 := a / 4, a % 4 * 16 + b / 16, b % 16 * 4 + c / 64, c % 64;
            d0 * 4 + d1 / 16 == a && d1 % 16 * 16 + d2 / 4 == b && d2 % 4 * 64 + d3 == c
  {
  }

  lemma GroupDigits(a: Byte, b: Byte, c: Byte)
    ensures var g := Group(a, b, c);
            && DigitValue(g[0]) == Some(a / 4)
            && DigitValue(g[1]) == Some(a % 4 * 16 + b / 16)
            && DigitValue(g[2]) == Some(b % 16 * 4 + c / 64)
            && DigitValue(g[3]) == Some(c % 64)
            && g[2] != '=' && g[3] != '='
  {
    DigitValueChar(a / 4);
    DigitValueChar(a % 4 * 16 + b / 16);
    DigitValueChar(b % 16 * 4 + c / 64);
    DigitValueChar(c % 64);
  }

  lemma DecodeFourDigits(s: string, d0: Digit, d1: Digit, d2: Digit, d3: Digit)
    requires |s| >= 4
    requires DigitValue(s[0]) == Some(d0) && DigitValue(s[1]) == Some(d1)
    requires DigitValue(s[2]) == Some(d2) && DigitValue(s[3]) == Some(d3)
    ensures var rest := Decode(s[4..]);
            Decode(s) == if rest.None? then None
                         else Some([d0 * 4 + d1 / 16, d1 % 16 * 16 + d2 / 4, d2 % 4 * 64 + d3] + rest.value)
  {
    assert s[2..][0] == s[2] && s[3..][0] == s[3];
  }

  lemma DecodeFullGroup(a: Byte, b: Byte, c: Byte, text: string)
    ensures Decode(Group(a, b, c) + text)
            == if Decode(text).None? then None else Some([a, b, c] + Decode(text).value)
  {
    var s := Group(a, b, c) + text;
    var d0, d1, d2, d3 := a / 4, a % 4 * 16 + b / 16, b % 16 * 4 + c / 64, c % 64;
    GroupDigits(a, b, c);
    assert s[4..] == text;
    assert [d0 * 4 + d1 / 16, d1 % 16 * 16 + d2 / 4, d2 % 4 * 64 + d3] == [a, b, c] by {
      GroupBytes(a, b, c);
    }
    DecodeFourDigits(s, d0, d1, d2, d3);
  }

  lemma DecodeLastGroup(a: Byte, b: Byte)
    ensures Decode(Group(a, 0, 0)[..2] + "==") == Some([a])
    ensures Decode(Group(a, b, 0)[..3] + "=") == Some([a, b])
  {
    GroupDigits(a, 0, 0);
    GroupBytes(a, 0, 0);
    GroupDigits(a, b, 0);
    GroupBytes(a, b, 0);
    var s, t := Group(a, 0, 0)[..2] + "==", Group(a, b, 0)[..3] + "=";
    assert s[2..] == "==" && t[3..] == "=";
    assert t[2..][0] == t[2];
  }

  /** Decoding undoes encoding. */
  lemma {:induction false} DecodeEncode(bytes: seq<Byte>)
    ensures Decode(Encode(bytes)) == Some(bytes)
  {
    if |bytes| > 2 {
      DecodeEncode(bytes[3..]);
      DecodeFullGroup(bytes[0], bytes[1], bytes[2], Encode(bytes[3..]));
      assert [bytes[0], bytes[1], bytes[2]] + bytes[3..] == bytes;
    } else if bytes != [] {
      DecodeLastGroup(bytes[0], bytes[|bytes| - 1]);
      assert bytes == if |bytes| == 1 then [bytes[0]] else [bytes[0], bytes[1]];
    }
  }

  function UrlChar(c: char): char {
    if c == '+' then '-' else if c == '/' then '_' else c
  }

  function PlainChar(c: char): char {
    if c == '-' then '+' else if c == '_' then '/' else c
  }

  predicate NotPadding(c: char) {
    c != '='
  }

  /** `base64UrlEncode`. */
  function Base64UrlEncode(bytes: seq<Byte>): string {
    MapRows(Filter(Encode(bytes), NotPadding), UrlChar)
  }

  function Padding(n: nat): (s: string)
    ensures |s| == n && forall i :: 0 <= i < n ==> s[i] == '='
  {
    if n == 0 then "" else "=" + Padding(n - 1)
  }

  /** How many padding characters complete `n` digits to groups of four. */
  function Missing(n: nat): nat {
    (n + 3) / 4 * 4 - n
  }

  /** `toBase64`: restore the alphabet and pad to a multiple of four. */
  function ToBase64(value: string): string {
    var plain := MapRows(value, PlainChar);
    plain + Padding(Missing(|plain|))
  }

  /** The digits of `Encode`, without padding. */
  function Digits(bytes: seq<Byte>): (s: string)
    ensures forall i :: 0 <= i < |s| ==> PlainDigit(s[i])
  {
    if bytes == [] then ""
    else if |bytes| == 1 then Group(bytes[0], 0, 0)[..2]
    else if |bytes| == 2 then Group(bytes[0], bytes[1], 0)[..3]
    else Group(bytes[0], bytes[1], bytes[2]) + Digits(bytes[3..])
  }

  lemma MissingRepeats(n: nat)
    ensures Missing(n + 4) == Missing(n)
  {
  }

  lemma EncodeLastGroup(bytes: seq<Byte>)
    requires |bytes| <= 2
    ensures Encode(bytes) == Digits(bytes) + Padding(Missing(|Digits(bytes)|))
  {
    if |bytes| == 1 {
      assert Padding(2) == "==";
    } else if |bytes| == 2 {
      assert Padding(1) == "=";
    }
  }

  lemma {:induction false} EncodeIsPaddedDigits(bytes: seq<Byte>)
    ensures Encode(bytes) == Digits(bytes) + Padding(Missing(|Digits(bytes)|))
    ensures bytes != [] ==> Digits(bytes) != ""
  {
    if |bytes| <= 2 {
      EncodeLastGroup(bytes);
    } else {
      var group, rest := Group(bytes[0], bytes[1], bytes[2]), Digits(bytes[3..]);
      EncodeIsPaddedDigits(bytes[3..]);
      MissingRepeats(|rest|);
      assert group + (rest + Padding(Missing(|rest|))) == group + rest + Padding(Missing(|rest|));
    }
  }

  lemma {:induction false} FilterDigits(digits: string, padding: string)
    requires forall i :: 0 <= i < |digits| ==> digits[i] != '='
    requires forall i :: 0 <= i < |padding| ==> padding[i] == '='
    ensures Filter(digits + padding, NotPadding) == digits
  {
    var s := digits + padding;
    if digits != "" {
      assert s[1..] == digits[1..] + padding;
      FilterDigits(digits[1..], padding);
      assert [digits[0]] + digits[1..] == digits;
    } else if padding != "" {
      assert s[1..] == "" + padding[1..];
      FilterDigits("", padding[1..]);
    }
  }

  /**
   * Stripping and restoring are inverse: `toBase64` rebuilds exactly the padded text, decoding it
   * gives the bytes, and the stripped form never contains a dot or padding.
   */
  lemma UrlRoundTrip(bytes: seq<Byte>)
    ensures ToBase64(Base64UrlEncode(bytes)) == Encode(bytes)
    ensures Decode(ToBase64(Base64UrlEncode(bytes))) == Some(bytes)
    ensures forall c :: c in Base64UrlEncode(bytes) ==> UrlSafe(c)
    ensures bytes != [] ==> Base64UrlEncode(bytes) != ""
  {
    EncodeIsPaddedDigits(bytes);
    StripAndRestore(Digits(bytes), Encode(bytes));
    DecodeEncode(bytes);
  }

  lemma StripAndRestore(digits: string, text: string)
    requires forall i :: 0 <= i < |digits| ==> PlainDigit(digits[i])
    requires text == digits + Padding(Missing(|digits|))
    ensures var url := MapRows(Filter(text, NotPadding), UrlChar);
            ToBase64(url) == text && |url| == |digits| && forall c :: c in url ==> UrlSafe(c)
  {
    FilterDigits(digits, Padding(Missing(|digits|)));
    UrlCharsUndo(digits);
  }

  lemma {:induction false} UrlCharsUndo(digits: string)
    requires forall i :: 0 <= i < |digits| ==> PlainDigit(digits[i])
    ensures MapRows(MapRows(digits, UrlChar), PlainChar) == digits
    ensures forall c :: c in MapRows(digits, UrlChar) ==> UrlSafe(c)
  {
    if digits != "" {
      UrlCharsUndo(digits[1..]);
      var url := MapRows(digits, UrlChar);
      assert url[1..] == MapRows(digits[1..], UrlChar);
      assert PlainDigit(digits[0]);
      assert [digits[0]] + digits[1..] == digits;
    }
  }
}
