/** UTF-8: which bytes stand for which character. */
module Characters {
  import opened Sequences
  import opened Parser

  /** A Unicode scalar value, as section 3.9 of the Unicode Standard has it. */
  predicate Scalar(c: nat) { c <= 0x10FFFF && !(0xD800 <= c <= 0xDFFF) }

  /** The characters of more than one byte that are printed as themselves: U+FFFF stands for the second half of a wide one. */
  predicate Kept(c: nat) { 0x80 <= c && Scalar(c) && c != 0xFFFF }

  /** The bytes of a character, as section 3 of RFC 3629 lays them out. */
  function Encode(c: nat): (r: seq<Byte>)
    requires 0x80 <= c <= 0x10FFFF
    ensures WellFormed(r)
  {
    if c < 0x800 then [0xC0 + c / 64, 0x80 + c % 64]
    else if c < 0x10000 then [0xE0 + c / 4096, 0x80 + c / 64 % 64, 0x80 + c % 64]
    else [0xF0 + c / 262144, 0x80 + c / 4096 % 64, 0x80 + c / 64 % 64, 0x80 + c % 64]
  }

  predicate IsLead(b: Byte) { 0xC0 <= b < 0xF8 }

  predicate IsContinuation(b: Byte) { 0x80 <= b < 0xC0 }

  /** A lead byte and as many continuation bytes as it calls for. */
  predicate WellFormed(buf: seq<Byte>) {
    buf != [] && IsLead(buf[0]) && |buf| == SequenceLength(buf[0]) && forall i :: 1 <= i < |buf| ==> IsContinuation(buf[i])
  }

  /** The character of a sequence that stands for `c` unless it is refused, in a form that begins at `least`. */
  function Accepted(c: nat, least: nat): nat { if c < least || !Scalar(c) || c == 0xFFFF then REPLACEMENT else c }

  lemma Two(d1: nat, d0: nat)
    requires d1 < 32 && d0 < 64
    ensures DecodeUtf8([0xC0 + d1, 0x80 + d0]) == Accepted(d1 * 64 + d0, 0x80)
    ensures 0x80 <= d1 * 64 + d0 ==> Encode(d1 * 64 + d0) == [0xC0 + d1, 0x80 + d0]
  {}

  lemma Three(d2: nat, d1: nat, d0: nat)
    requires d2 < 16 && d1 < 64 && d0 < 64
    ensures DecodeUtf8([0xE0 + d2, 0x80 + d1, 0x80 + d0]) == Accepted(d2 * 4096 + d1 * 64 + d0, 0x800)
    ensures 0x800 <= d2 * 4096 + d1 * 64 + d0 ==> Encode(d2 * 4096 + d1 * 64 + d0) == [0xE0 + d2, 0x80 + d1, 0x80 + d0]
  {
    assert (0xE0 + d2) % 16 == d2 && (0x80 + d1) % 64 == d1 && (0x80 + d0) % 64 == d0;
    var c := d2 * 4096 + d1 * 64 + d0;
    assert c / 4096 == d2 && c / 64 == d2 * 64 + d1 && c % 64 == d0;
  }

  lemma Four(d3: nat, d2: nat, d1: nat, d0: nat)
    requires d3 < 8 && d2 < 64 && d1 < 64 && d0 < 64
    ensures DecodeUtf8([0xF0 + d3, 0x80 + d2, 0x80 + d1, 0x80 + d0]) == Accepted(d3 * 262144 + d2 * 4096 + d1 * 64 + d0, 0x10000)
    ensures 0x10000 <= d3 * 262144 + d2 * 4096 + d1 * 64 + d0 <= 0x10FFFF ==>
      Encode(d3 * 262144 + d2 * 4096 + d1 * 64 + d0) == [0xF0 + d3, 0x80 + d2, 0x80 + d1, 0x80 + d0]
  {
    FourDigits(d3, d2, d1, d0);
    assert (0xF0 + d3) % 8 == d3 && (0x80 + d2) % 64 == d2 && (0x80 + d1) % 64 == d1 && (0x80 + d0) % 64 == d0;
  }

  lemma FourDigits(d3: nat, d2: nat, d1: nat, d0: nat)
    requires d3 < 8 && d2 < 64 && d1 < 64 && d0 < 64
    ensures var c := d3 * 262144 + d2 * 4096 + d1 * 64 + d0;
      c / 262144 == d3 && c / 4096 % 64 == d2 && c / 64 % 64 == d1 && c % 64 == d0
  {
    var c := d3 * 262144 + d2 * 4096 + d1 * 64 + d0;
    assert c / 4096 == d3 * 64 + d2 && c / 64 == (d3 * 64 + d2) * 64 + d1;
  }

  /** The base-64 digits of a number. */
  lemma Digits(c: nat) returns (d3: nat, d2: nat, d1: nat, d0: nat)
    ensures d2 < 64 && d1 < 64 && d0 < 64 && c == d3 * 262144 + d2 * 4096 + d1 * 64 + d0
  {
    var sixties, thousands := c / 64, c / 64 / 64;
    d3, d2, d1, d0 := thousands / 64, thousands % 64, sixties % 64, c % 64;
    assert c == sixties * 64 + d0 && sixties == thousands * 64 + d1 && thousands == d3 * 64 + d2;
  }

  /** Every character comes back from its bytes, but for surrogates and U+FFFF, which are replaced. */
  lemma EncodeReadsBack(c: nat)
    requires 0x80 <= c <= 0x10FFFF
    ensures DecodeUtf8(Encode(c)) == if Kept(c) then c else REPLACEMENT
  {
    hide DecodeUtf8, Encode;
    var d3, d2, d1, d0 := Digits(c);
    if c < 0x800 { Two(d1, d0); } else if c < 0x10000 { Three(d2, d1, d0); } else { Four(d3, d2, d1, d0); }
  }

  /** Whatever is not replaced was the one encoding of its character: an overlong form never stands for one. */
  lemma DecodedOnce(buf: seq<Byte>)
    requires WellFormed(buf)
    ensures DecodeUtf8(buf) == REPLACEMENT || (Kept(DecodeUtf8(buf)) && buf == Encode(DecodeUtf8(buf)))
  {
    hide DecodeUtf8, Encode;
    if |buf| == 2 {
      assert buf == [buf[0], buf[1]];
      Two(buf[0] - 0xC0, buf[1] - 0x80);
    } else if |buf| == 3 {
      assert buf == [buf[0], buf[1], buf[2]];
      Three(buf[0] - 0xE0, buf[1] - 0x80, buf[2] - 0x80);
    } else {
      assert buf == [buf[0], buf[1], buf[2], buf[3]];
      Four(buf[0] - 0xF0, buf[1] - 0x80, buf[2] - 0x80, buf[3] - 0x80);
    }
  }

  /** So a sequence stands for a character other than the replacement exactly when it is its encoding. */
  lemma DecodesIff(buf: seq<Byte>, c: nat)
    requires WellFormed(buf) && c != REPLACEMENT
    ensures DecodeUtf8(buf) == c <==> Kept(c) && buf == Encode(c)
  {
    hide DecodeUtf8, Encode;
    DecodedOnce(buf);
    if Kept(c) { EncodeReadsBack(c); }
  }
}
