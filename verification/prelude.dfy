/** Shared vocabulary: options, bytes and the lower-case hexadecimal text that
    `fmt.Sprintf("%x", …)` prints for a digest. */
module Prelude {

  datatype Option<+T> = None | Some(value: T)

  newtype Byte = x: int | 0 <= x < 256
  type Bytes = seq<Byte>

  /** A 16-byte md5 sum. */
  type Md5Sum = s: Bytes | |s| == 16 witness seq(16, _ => 0)

  const HEX_DIGITS := "0123456789abcdef"

  function Hex(bytes: Bytes): string {
    if bytes == [] then ""
    else [HEX_DIGITS[bytes[0] / 16], HEX_DIGITS[bytes[0] % 16]] + Hex(bytes[1..])
  }

  lemma {:induction false} HexLength(bytes: Bytes)
    ensures |Hex(bytes)| == 2 * |bytes|
  {
    if bytes != [] {
      HexLength(bytes[1..]);
    }
  }

  /** The value of a lower-case hexadecimal digit. */
  function DigitValue(c: char): Option<nat> {
    if '0' <= c <= '9' then Some(c as int - '0' as int)
    else if 'a' <= c <= 'f' then Some(c as int - 'a' as int + 10)
    else None
  }

  /** Two lower-case hexadecimal digits for each byte, the high one first. */
  ghost predicate LowerHex(text: string, bytes: Bytes) {
    && |text| == 2 * |bytes|
    && forall i :: 0 <= i < |bytes| ==>
         && DigitValue(text[2 * i]) == Some(bytes[i] as int / 16)
         && DigitValue(text[2 * i + 1]) == Some(bytes[i] as int % 16)
  }

  lemma DigitText(v: nat)
    requires v < 16
    ensures DigitValue(HEX_DIGITS[v]) == Some(v)
    ensures forall c :: DigitValue(c) == Some(v) ==> c == HEX_DIGITS[v]
  {
  }

  /** The first two digits, and the rest. */
  lemma LowerHexFirst(bytes: Bytes, text: string)
    requires bytes != [] && |text| == 2 * |bytes|
    ensures LowerHex(text, bytes) <==>
            DigitValue(text[0]) == Some(bytes[0] as int / 16) && DigitValue(text[1]) == Some(bytes[0] as int % 16) &&
            LowerHex(text[2..], bytes[1..])
  {
    var rest := text[2..];
    forall i | 0 <= i < |bytes| - 1
      ensures rest[2 * i] == text[2 * (i + 1)] && rest[2 * i + 1] == text[2 * (i + 1) + 1]
      ensures bytes[1..][i] == bytes[i + 1]
    {
    }
    if LowerHex(text, bytes) {
      assert DigitValue(text[2 * 0]) == Some(bytes[0] as int / 16);
    } else {
      var i :| 0 <= i < |bytes| && !(DigitValue(text[2 * i]) == Some(bytes[i] as int / 16) &&
                                     DigitValue(text[2 * i + 1]) == Some(bytes[i] as int % 16));
      if i > 0 {
        assert rest[2 * (i - 1)] == text[2 * i] && rest[2 * (i - 1) + 1] == text[2 * i + 1];
      }
    }
  }

  /** The text printed is the lower-case one, and no other text is. */
  lemma {:induction false} HexText(bytes: Bytes, text: string)
    ensures text == Hex(bytes) <==> LowerHex(text, bytes)
  {
    hide DigitValue;
    HexLength(bytes);
    if bytes != [] && |text| == 2 * |bytes| {
      hide LowerHex;
      var hi, lo := bytes[0] as int / 16, bytes[0] as int % 16;
      HexText(bytes[1..], text[2..]);
      DigitText(hi);
      DigitText(lo);
      LowerHexFirst(bytes, text);
      assert text == [text[0], text[1]] + text[2..];
      assert Hex(bytes)[0] == HEX_DIGITS[hi] && Hex(bytes)[1] == HEX_DIGITS[lo] && Hex(bytes)[2..] == Hex(bytes[1..]);
    }
  }

  lemma HexDigitsDiffer(i: nat, j: nat)
    requires i < 16 && j < 16 && HEX_DIGITS[i] == HEX_DIGITS[j]
    ensures i == j
  {
  }

  /** Hexadecimal text determines the bytes it was printed from. */
  lemma {:induction false} HexInjective(a: Bytes, b: Bytes)
    requires Hex(a) == Hex(b)
    ensures a == b
  {
    HexLength(a);
    HexLength(b);
    if a != [] {
      var ha, hb := Hex(a), Hex(b);
      assert ha[0] == HEX_DIGITS[a[0] / 16] && hb[0] == HEX_DIGITS[b[0] / 16];
      assert ha[1] == HEX_DIGITS[a[0] % 16] && hb[1] == HEX_DIGITS[b[0] % 16];
      HexDigitsDiffer((a[0] / 16) as int, (b[0] / 16) as int);
      HexDigitsDiffer((a[0] % 16) as int, (b[0] % 16) as int);
      assert a[0] == b[0];
      assert ha[2..] == Hex(a[1..]) && hb[2..] == Hex(b[1..]);
      HexInjective(a[1..], b[1..]);
      assert a == [a[0]] + a[1..] && b == [b[0]] + b[1..];
    }
  }
}
