// Bytes, and the exclusive or of bytes.
module Bytes {

  const TWO_32 := 0x1_0000_0000
  const TWO_64 := 0x1_0000_0000_0000_0000

  type Byte = x: int | 0 <= x < 256

  function Power(k: nat): (r: nat)
    ensures r > 0
  {
    if k == 0 then 1 else 2 * Power(k - 1)
  }

  /** The low k bits of the exclusive or: bit by bit, the sum without carries. */
  function Xor(k: nat, a: nat, b: nat): (r: nat)
    ensures r < Power(k)
  {
    if k == 0 then 0 else 2 * Xor(k - 1, a / 2, b / 2) + (a + b) % 2
  }

  lemma {:induction false} XorTwice(k: nat, a: nat, b: nat)
    requires a < Power(k)
    ensures Xor(k, Xor(k, a, b), b) == a
  {
    if k > 0 {
      var y, c := Xor(k - 1, a / 2, b / 2), (a + b) % 2;
      XorTwice(k - 1, a / 2, b / 2);
      assert Xor(k, a, b) == 2 * y + c && Xor(k, 2 * y + c, b) == 2 * Xor(k - 1, (2 * y + c) / 2, b / 2) + (2 * y + c + b) % 2;
      hide Xor, Power;
      Halves(y, c);
      ParityTwice(a, b);
      LowBit(2 * y + c, b, c);
    }
  }

  lemma Halves(y: nat, c: nat)
    requires c < 2
    ensures (2 * y + c) / 2 == y && (2 * y + c) % 2 == c
  {
  }

  lemma LowBit(x: nat, b: nat, c: nat)
    requires x % 2 == c
    ensures (x + b) % 2 == (c + b) % 2
  {
  }

  lemma ParityTwice(a: nat, b: nat)
    ensures ((a + b) % 2 + b) % 2 == a % 2
  {
  }

  function XorByte(a: Byte, b: Byte): (r: Byte)
    ensures r == Xor(8, a, b)
  {
    assert Power(8) == 256 by {
      assert Power(4) == 16;
      assert Power(8) == 2 * (2 * (2 * (2 * Power(4))));
    }
    Xor(8, a, b)
  }

  /** Masking a byte twice gives it back. */
  lemma XorByteTwice(a: Byte, b: Byte)
    ensures XorByte(XorByte(a, b), b) == a
  {
    assert Power(8) == 256 by {
      assert Power(4) == 16;
      assert Power(8) == 2 * (2 * (2 * (2 * Power(4))));
    }
    XorTwice(8, a, b);
  }

  // ---- numbers in bytes ----

  function BigEndian(n: nat, size: nat): (s: seq<Byte>)
    ensures |s| == size
  {
    if size == 0 then [] else BigEndian(n / 256, size - 1) + [n % 256]
  }

  function Number(s: seq<Byte>): nat {
    if s == [] then 0 else 256 * Number(s[..|s| - 1]) + s[|s| - 1]
  }

  /** How many numbers there are of that many bytes. */
  function Range(size: nat): nat {
    if size == 0 then 1 else 256 * Range(size - 1)
  }

  lemma {:induction false} NumberOfBigEndian(n: nat, size: nat)
    requires n < Range(size)
    ensures Number(BigEndian(n, size)) == n
  {
    if size > 0 {
      NumberOfBigEndian(n / 256, size - 1);
      assert BigEndian(n, size)[..size - 1] == BigEndian(n / 256, size - 1);
    }
  }

  lemma {:induction false} BigEndianOfNumber(s: seq<Byte>)
    ensures BigEndian(Number(s), |s|) == s && Number(s) < Range(|s|)
  {
    if s != [] {
      BigEndianOfNumber(s[..|s| - 1]);
      assert s == s[..|s| - 1] + [s[|s| - 1]];
    }
  }

  lemma Ranges()
    ensures Range(2) == 0x1_0000 && Range(4) == 0x1_0000_0000 && Range(8) == 0x1_0000_0000_0000_0000
  {
    assert Range(4) == 256 * (256 * Range(2));
    assert Range(6) == 256 * (256 * Range(4));
    assert Range(8) == 256 * (256 * Range(6));
  }
}
