/** Base 64 encoding of RFC 4648: the standard alphabet with '=' padding (section 4)
    and the URL and filename safe alphabet without padding (section 5), which is
    what Node's `Buffer.toString("base64")` and `toString("base64url")` produce.
    The decoders are reference definitions used to state that encoding loses nothing. */
module Base64 {
  import opened Common

  /** The character for value `i` (0..63): Table 1 of RFC 4648 when `url` is false,
      Table 2 when it is true; they differ only in values 62 and 63. */
  function Digit(i: int, url: bool): char
    requires 0 <= i < 64
  {
    if i < 26 then (65 + i) as char
    else if i < 52 then (97 + i - 26) as char
    else if i < 62 then (48 + i - 52) as char
    else if i == 62 then (if url then '-' else '+')
    else (if url then '_' else '/')
  }

  /** The value of an alphabet character, or None for a character outside the alphabet. */
  function DigitValue(c: char, url: bool): Option<int> {
    if 'A' <= c <= 'Z' then Some(c as int - 65)
    else if 'a' <= c <= 'z' then Some(c as int - 97 + 26)
    else if '0' <= c <= '9' then Some(c as int - 48 + 52)
    else if c == (if url then '-' else '+') then Some(62)
    else if c == (if url then '_' else '/') then Some(63)
    else None
  }

  /** A character of the URL and filename safe alphabet (RFC 4648, section 5). */
  predicate IsUrlSafeChar(c: char) {
    ('A' <= c <= 'Z') || ('a' <= c <= 'z') || ('0' <= c <= '9') || c == '-' || c == '_'
  }

  predicate IsSextets(s: seq<int>) {
    forall k :: 0 <= k < |s| ==> 0 <= s[k] < 64
  }

  /** Splits bytes into 6-bit groups, most significant bits first; a final group of
      one or two bytes is completed with zero bits and yields two or three values. */
  function Sextets(b: seq<byte>): (r: seq<int>)
    ensures |r| == (4 * |b| + 2) / 3
    ensures IsSextets(r)
  {
    if |b| == 0 then []
    else if |b| == 1 then [b[0] / 4, (b[0] % 4) * 16]
    else if |b| == 2 then [b[0] / 4, (b[0] % 4) * 16 + b[1] / 16, (b[1] % 16) * 4]
    else [b[0] / 4, (b[0] % 4) * 16 + b[1] / 16, (b[1] % 16) * 4 + b[2] / 64, b[2] % 64] + Sextets(b[3..])
  }

  /** Reassembles bytes from 6-bit groups; the inverse of Sextets. A lone final value
      carries no whole byte and yields nothing. */
  function Octets(s: seq<int>): seq<byte>
    requires IsSextets(s)
  {
    if |s| <= 1 then []
    else if |s| == 2 then [s[0] * 4 + s[1] / 16]
    else if |s| == 3 then [s[0] * 4 + s[1] / 16, (s[1] % 16) * 16 + s[2] / 4]
    else [s[0] * 4 + s[1] / 16, (s[1] % 16) * 16 + s[2] / 4, (s[2] % 4) * 64 + s[3]] + Octets(s[4..])
  }

  /** A single final byte decodes back from its two values. */
  lemma GroupOfOne(b0: byte)
    ensures Octets(Sextets([b0])) == [b0]
  {
    var s := [b0 / 4, (b0 % 4) * 16];
    assert Sextets([b0]) == s;
    assert s[0] * 4 + s[1] / 16 == b0;
  }

  /** Two final bytes decode back from their three values. */
  lemma GroupOfTwo(b0: byte, b1: byte)
    ensures Octets(Sextets([b0, b1])) == [b0, b1]
  {
    var s := [b0 / 4, (b0 % 4) * 16 + b1 / 16, (b1 % 16) * 4];
    assert Sextets([b0, b1]) == s;
    assert s[1] / 16 == b0 % 4 && s[1] % 16 == b1 / 16;
    assert s[0] * 4 + s[1] / 16 == b0;
    assert (s[1] % 16) * 16 + s[2] / 4 == b1;
  }

  lemma GroupOfThree(b0: byte, b1: byte, b2: byte)
    ensures (b0 / 4) * 4 + ((b0 % 4) * 16 + b1 / 16) / 16 == b0
    ensures (((b0 % 4) * 16 + b1 / 16) % 16) * 16 + ((b1 % 16) * 4 + b2 / 64) / 4 == b1
    ensures (((b1 % 16) * 4 + b2 / 64) % 4) * 64 + b2 % 64 == b2
  {
    var s1 := (b0 % 4) * 16 + b1 / 16;
    assert s1 / 16 == b0 % 4 && s1 % 16 == b1 / 16;
    var s2 := (b1 % 16) * 4 + b2 / 64;
    assert s2 / 4 == b1 % 16 && s2 % 4 == b2 / 64;
  }

  /** Three bytes in front of their tail: their four values decode back to them. */
  lemma OctetsOfGroup(b0: byte, b1: byte, b2: byte, tail: seq<int>)
    requires IsSextets(tail)
    ensures var s := [b0 / 4, (b0 % 4) * 16 + b1 / 16, (b1 % 16) * 4 + b2 / 64, b2 % 64] + tail;
            IsSextets(s) && Octets(s) == [b0, b1, b2] + Octets(tail)
  {
    GroupOfThree(b0, b1, b2);
    var s := [b0 / 4, (b0 % 4) * 16 + b1 / 16, (b1 % 16) * 4 + b2 / 64, b2 % 64] + tail;
    assert s[4..] == tail;
  }

  lemma {:induction false} OctetsOfSextets(b: seq<byte>)
    ensures Octets(Sextets(b)) == b
    decreases |b|
  {
    if |b| == 1 {
      assert b == [b[0]];
      GroupOfOne(b[0]);
    } else if |b| == 2 {
      assert b == [b[0], b[1]];
      GroupOfTwo(b[0], b[1]);
    } else if |b| > 2 {
      var tail := Sextets(b[3..]);
      OctetsOfSextets(b[3..]);
      OctetsOfGroup(b[0], b[1], b[2], tail);
      assert Sextets(b) == [b[0] / 4, (b[0] % 4) * 16 + b[1] / 16, (b[1] % 16) * 4 + b[2] / 64, b[2] % 64] + tail;
      assert Octets(Sextets(b)) == [b[0], b[1], b[2]] + b[3..];
      assert b == [b[0], b[1], b[2]] + b[3..];
    }
  }

  /** The characters for a sequence of 6-bit values. */
  function Digits(s: seq<int>, url: bool): (r: string)
    requires IsSextets(s)
    ensures |r| == |s|
  {
    seq(|s|, k requires 0 <= k < |s| => Digit(s[k], url))
  }

  /** Maps characters back to their values; None when one is outside the alphabet. */
  function Values(t: string, url: bool): Option<seq<int>> {
    if |t| == 0 then Some([])
    else match DigitValue(t[0], url)
      case None => None
      case Some(v) =>
        match Values(t[1..], url)
        case None => None
        case Some(rest) => Some([v] + rest)
  }

  lemma {:induction false} ValuesOfDigits(s: seq<int>, url: bool)
    requires IsSextets(s)
    ensures Values(Digits(s, url), url) == Some(s)
    decreases |s|
  {
    if |s| > 0 {
      assert Digits(s, url)[1..] == Digits(s[1..], url);
      ValuesOfDigits(s[1..], url);
      assert s == [s[0]] + s[1..];
    }
  }

  /** `Buffer.toString("base64url")`: URL-safe alphabet, no padding. */
  function EncodeUrl(b: seq<byte>): (r: string)
    ensures |r| == (4 * |b| + 2) / 3
    ensures forall k :: 0 <= k < |r| ==> IsUrlSafeChar(r[k])
  {
    Digits(Sextets(b), true)
  }

  /** The number of '=' characters that complete the last group to four characters. */
  function PadLength(n: nat): nat {
    (3 - n % 3) % 3
  }

  /** Counting digits: `n` bytes give `(4n + 2) / 3` digits, never one more than a
      multiple of four, and the padding completes them to whole groups of four. */
  lemma {:induction false} DigitCount(n: nat)
    ensures (4 * n + 2) / 3 % 4 != 1
    ensures (4 * n + 2) / 3 + PadLength(n) == 4 * ((n + 2) / 3)
  {
    var q, r := n / 3, n % 3;
    assert n == 3 * q + r;
    if r == 0 {
      assert 4 * n + 2 == 3 * (4 * q) + 2 && n + 2 == 3 * q + 2;
    } else if r == 1 {
      assert 4 * n + 2 == 3 * (4 * q + 2) && n + 2 == 3 * (q + 1);
    } else {
      assert 4 * n + 2 == 3 * (4 * q + 3) + 1 && n + 2 == 3 * (q + 1) + 1;
    }
  }

  /** `Buffer.toString("base64")`: standard alphabet, padded with '=' to a multiple of four. */
  function EncodeStd(b: seq<byte>): (r: string)
    ensures |r| == 4 * ((|b| + 2) / 3)
  {
    DigitCount(|b|);
    Digits(Sextets(b), false) + seq(PadLength(|b|), _ => '=')
  }

  /** Reference decoder for the URL-safe form. */
  function DecodeUrl(t: string): Option<seq<byte>> {
    match Values(t, true)
    case None => None
    case Some(s) => if IsSextets(s) && |s| % 4 != 1 then Some(Octets(s)) else None
  }

  /** A padded text without its trailing '=' characters, at most two of them. */
  function Unpadded(t: string): string {
    if |t| >= 2 && t[|t| - 2..] == "==" then t[..|t| - 2]
    else if |t| >= 1 && t[|t| - 1] == '=' then t[..|t| - 1]
    else t
  }

  /** Reference decoder for the padded standard form. */
  function DecodeStd(t: string): Option<seq<byte>> {
    match Values(Unpadded(t), false)
    case None => None
    case Some(s) => if IsSextets(s) && |s| % 4 != 1 then Some(Octets(s)) else None
  }

  lemma DecodeUrlEncodeUrl(b: seq<byte>)
    ensures DecodeUrl(EncodeUrl(b)) == Some(b)
  {
    ValuesOfDigits(Sextets(b), true);
    DigitCount(|b|);
    OctetsOfSextets(b);
  }

  /** No digit of either alphabet is the padding character. */
  lemma DigitIsNotPad(i: int, url: bool)
    requires 0 <= i < 64
    ensures Digit(i, url) != '='
  {
  }

  /** A text of digits ending in a digit keeps its padding apart: `pad` '=' characters
      after it are exactly what Unpadded drops. */
  lemma UnpaddedDigits(d: string, pad: nat)
    requires pad <= 2
    requires |d| > 0 && d[|d| - 1] != '='
    ensures Unpadded(d + seq(pad, _ => '=')) == d
  {
    var t := d + seq(pad, _ => '=');
    assert t[|d| - 1] == d[|d| - 1];
    if pad == 2 {
      assert t[|t| - 2..] == "==";
      assert t[..|t| - 2] == d;
    } else if pad == 1 {
      assert t[|t| - 2..] != "==" by { assert t[|t| - 2..][0] == d[|d| - 1]; }
      assert t[..|t| - 1] == d;
    } else {
      assert t == d;
      assert |t| < 2 || t[|t| - 2..][1] == d[|d| - 1];
    }
  }

  /** Dropping the padding of an encoding leaves exactly its digits. */
  lemma UnpaddedEncodeStd(b: seq<byte>)
    ensures Unpadded(EncodeStd(b)) == Digits(Sextets(b), false)
  {
    var s := Sextets(b);
    var d := Digits(s, false);
    if |b| == 0 {
      assert EncodeStd(b) == [];
    } else {
      DigitIsNotPad(s[|s| - 1], false);
      UnpaddedDigits(d, PadLength(|b|));
    }
  }

  lemma DecodeStdEncodeStd(b: seq<byte>)
    ensures DecodeStd(EncodeStd(b)) == Some(b)
  {
    UnpaddedEncodeStd(b);
    ValuesOfDigits(Sextets(b), false);
    DigitCount(|b|);
    OctetsOfSextets(b);
  }

  /** A character of the standard alphabet or the pad (RFC 4648, section 4). */
  predicate IsStdChar(c: char) {
    ('A' <= c <= 'Z') || ('a' <= c <= 'z') || ('0' <= c <= '9') || c == '+' || c == '/' || c == '='
  }

  /** The padded standard encoding uses only the standard alphabet and '='. */
  lemma EncodeStdAlphabet(b: seq<byte>)
    ensures forall k :: 0 <= k < |EncodeStd(b)| ==> IsStdChar(EncodeStd(b)[k])
  {
    var d := Digits(Sextets(b), false);
    var e := EncodeStd(b);
    forall k | 0 <= k < |e|
      ensures IsStdChar(e[k])
    {
      if k < |d| {
        assert e[k] == Digit(Sextets(b)[k], false);
      } else {
        assert e[k] == '=';
      }
    }
  }
}
