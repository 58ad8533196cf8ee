/** The research identification code made at login (app.py:38-43): the first
    two hexadecimal digits of the university name's SHA-256 digest in upper
    case, the syllable "대", and a random number from 100 to 999. The digest
    and the random number are inputs of the model. */
module ExamCode {
  import opened Wrappers
  import opened Decimal

  type Byte = x: int | 0 <= x < 256

  /** Length of a SHA-256 digest in bytes. */
  const DigestLength: nat := 32

  /** A digit of `hexdigest()` after `upper()`. */
  predicate IsUpperHex(c: char) {
    '0' <= c <= '9' || 'A' <= c <= 'F'
  }

  const Marker: char := '대'

  /** The upper-case hexadecimal digit of a value below 16. */
  function HexDigit(v: nat): (c: char)
    requires v < 16
    ensures IsUpperHex(c)
  {
    if v < 10 then (('0' as int) + v) as char else (('A' as int) + v - 10) as char
  }

  /** `hexdigest()[:2].upper()`: the two digits of the digest's first byte. */
  function HashPrefix(digest: seq<Byte>): (p: string)
    requires |digest| == DigestLength
    ensures |p| == 2 && IsUpperHex(p[0]) && IsUpperHex(p[1])
  {
    [HexDigit(digest[0] / 16), HexDigit(digest[0] % 16)]
  }

  /** `make_code`: the hash prefix, the marker and the random number. */
  function MakeCode(univDigest: seq<Byte>, randNum: int): (code: string)
    requires |univDigest| == DigestLength
    requires 100 <= randNum <= 999
    ensures |code| == 6
    ensures IsUpperHex(code[0]) && IsUpperHex(code[1]) && code[2] == Marker
    ensures AllDigits(code[3..]) && code[3] != '0'
  {
    ShowThreeDigits(randNum);
    HashPrefix(univDigest) + [Marker] + Show(randNum)
  }

  /** The value of an upper-case hexadecimal digit. */
  function HexValue(c: char): (v: nat)
    requires IsUpperHex(c)
    ensures v < 16 && HexDigit(v) == c
  {
    if '0' <= c <= '9' then (c as int) - ('0' as int) else (c as int) - ('A' as int) + 10
  }

  /** Reads a code back into the digest's first byte and the random number;
      None for text that does not have the shape of a code. */
  function ParseCode(code: string): Option<(Byte, int)> {
    if |code| == 6 && IsUpperHex(code[0]) && IsUpperHex(code[1]) && code[2] == Marker
       && AllDigits(code[3..])
    then Some((HexValue(code[0]) * 16 + HexValue(code[1]), ValueOf(code[3..])))
    else None
  }

  /** A code reads back into the digest byte and the number it was made from,
      so two codes are equal only when both agree. */
  lemma ParseMakeCode(univDigest: seq<Byte>, randNum: int)
    requires |univDigest| == DigestLength
    requires 100 <= randNum <= 999
    ensures ParseCode(MakeCode(univDigest, randNum)) == Some((univDigest[0], randNum))
  {
    var code := MakeCode(univDigest, randNum);
    var b := univDigest[0];
    assert code[3..] == Show(randNum);
    ValueOfShow(randNum);
    assert HexValue(HexDigit(b / 16)) == b / 16;
    assert HexValue(HexDigit(b % 16)) == b % 16;
  }
}
