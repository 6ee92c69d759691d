// Base 128 varints and the records of the Protocol Buffers wire format ("Base 128 Varints",
// "Length-Delimited Records" and "Groups" of its encoding specification).
module Varints {
  import opened Options
  import opened Bytes

  // A varint takes at most this many bytes.
  const MAX_VARINT := 10

  /** Seven bits a byte, the lowest first; every byte but the last has its top bit set. */
  function VarintOf(n: nat): (s: seq<Byte>)
    ensures s != []
  {
    if n < 128 then [n] else [n % 128 + 128] + VarintOf(n / 128)
  }

  function ReadVarint(buf: seq<Byte>, pos: nat, room: nat): (r: Option<(nat, nat)>)
    ensures r.Some? ==> pos < r.value.1 <= |buf| && r.value.1 <= pos + room
    decreases room
  {
    if room == 0 || pos >= |buf| then None
    else if buf[pos] < 128 then Some((buf[pos], pos + 1))
    else match ReadVarint(buf, pos + 1, room - 1)
      case None => None
      case Some((high, after)) => Some((buf[pos] - 128 + 128 * high, after))
  }

  /** The bytes s are in the buffer at pos. */
  predicate At(buf: seq<Byte>, pos: nat, s: seq<Byte>) {
    pos + |s| <= |buf| && buf[pos..pos + |s|] == s
  }

  lemma AtParts(buf: seq<Byte>, pos: nat, s: seq<Byte>, t: seq<Byte>)
    requires At(buf, pos, s + t)
    ensures At(buf, pos, s) && At(buf, pos + |s|, t)
  {
    assert s == (s + t)[..|s|] && t == (s + t)[|s|..];
  }

  /** The bytes of one varint, however long it is written. */
  predicate IsVarint(s: seq<Byte>) {
    0 < |s| <= MAX_VARINT && s[|s| - 1] < 128 && forall i :: 0 <= i < |s| - 1 ==> s[i] >= 128
  }

  function Value(s: seq<Byte>): nat {
    if s == [] then 0 else (s[0] % 128) + 128 * Value(s[1..])
  }

  /** Reading takes exactly the bytes of a varint, whatever follows. */
  lemma {:induction false} ReadsVarint(buf: seq<Byte>, pos: nat, s: seq<Byte>, room: nat)
    requires At(buf, pos, s) && 0 < |s| <= room
    requires s[|s| - 1] < 128 && forall i :: 0 <= i < |s| - 1 ==> s[i] >= 128
    ensures ReadVarint(buf, pos, room) == Some((Value(s), pos + |s|))
    decreases |s|
  {
    assert buf[pos] == s[0];
    if |s| > 1 {
      assert s == [s[0]] + s[1..];
      AtParts(buf, pos, [s[0]], s[1..]);
      ReadsVarint(buf, pos + 1, s[1..], room - 1);
    } else {
      assert s[1..] == [];
    }
  }

  /** And nothing else is read as one. */
  lemma {:induction false} OnlyReadsVarints(buf: seq<Byte>, pos: nat, room: nat)
    requires room <= MAX_VARINT && ReadVarint(buf, pos, room).Some?
    ensures var (n, after) := ReadVarint(buf, pos, room).value;
            IsVarint(buf[pos..after]) && Value(buf[pos..after]) == n && after - pos <= room
    decreases room
  {
    var (n, after) := ReadVarint(buf, pos, room).value;
    if buf[pos] >= 128 {
      OnlyReadsVarints(buf, pos + 1, room - 1);
      assert buf[pos..after] == [buf[pos]] + buf[pos + 1..after];
    } else {
      assert buf[pos..after] == [buf[pos]];
      assert buf[pos..after][1..] == [];
    }
  }

  function Range7(size: nat): nat {
    if size == 0 then 1 else 128 * Range7(size - 1)
  }

  lemma OneByteMore(b: Byte, s: seq<Byte>)
    requires b >= 128 && IsVarint(s) && |s| < MAX_VARINT
    ensures IsVarint([b] + s) && Value([b] + s) == b % 128 + 128 * Value(s)
  {
    var t := [b] + s;
    assert t[1..] == s && t[|t| - 1] == s[|s| - 1];
    forall i | 0 <= i < |t| - 1 ensures t[i] >= 128 {
      if i > 0 { assert t[i] == s[i - 1]; }
    }
  }

  lemma {:induction false} VarintOfIsVarint(n: nat, size: nat)
    requires n < Range7(size) && 0 < size <= MAX_VARINT
    ensures IsVarint(VarintOf(n)) && |VarintOf(n)| <= size && Value(VarintOf(n)) == n
    decreases size
  {
    if n < 128 {
      assert [n][1..] == [];
    } else {
      assert n / 128 < Range7(size - 1);
      VarintOfIsVarint(n / 128, size - 1);
      OneByteMore(n % 128 + 128, VarintOf(n / 128));
    }
  }

  lemma Ranges7()
    ensures Range7(10) >= 0x1_0000_0000_0000_0000
  {
    assert Range7(4) == 128 * (128 * Range7(2));
    assert Range7(6) == 128 * (128 * Range7(4));
    assert Range7(8) == 128 * (128 * Range7(6));
    assert Range7(10) == 128 * (128 * Range7(8));
  }

  /** Every number of 64 bits is read back from its varint. */
  lemma ReadsNumber(buf: seq<Byte>, pos: nat, n: nat)
    requires n < 0x1_0000_0000_0000_0000 && At(buf, pos, VarintOf(n))
    ensures ReadVarint(buf, pos, MAX_VARINT) == Some((n, pos + |VarintOf(n)|)) && IsVarint(VarintOf(n))
  {
    hide VarintOf, ReadVarint, Value;
    Ranges7();
    VarintOfIsVarint(n, MAX_VARINT);
    ReadsVarint(buf, pos, VarintOf(n), MAX_VARINT);
  }
}
