/** The byte level of CAPI messages: little-endian words and the capimsg_set* / CAPIMSG_* accessors. */
module Wire {

  type byte = x: int | 0 <= x < 0x100
  type word = x: int | 0 <= x < 0x1_0000
  type dword = x: int | 0 <= x < 0x1_0000_0000

  const WORDS := 0x1_0000

  function Bytes16(v: word): (b: seq<byte>)
    ensures |b| == 2
  {
    [v % 0x100, v / 0x100]
  }

  function Bytes32(v: dword): (b: seq<byte>)
    ensures |b| == 4
  {
    Bytes16(v % WORDS) + Bytes16(v / WORDS)
  }

  function U16(m: seq<byte>, off: nat): word
    requires off + 2 <= |m|
  {
    m[off] as int + 0x100 * m[off + 1] as int
  }

  function U32(m: seq<byte>, off: nat): dword
    requires off + 4 <= |m|
  {
    U16(m, off) + WORDS * U16(m, off + 2)
  }

  /** Low byte first, as the bytes 78 56 34 12 are the double word 12345678. */
  lemma LowByteFirst()
    ensures Bytes32(0x1234_5678) == [0x78, 0x56, 0x34, 0x12] && U32([0x78, 0x56, 0x34, 0x12], 0) == 0x1234_5678
    ensures Bytes16(0x1234) == [0x34, 0x12] && U16([0x34, 0x12], 0) == 0x1234
  {
    assert 0x1234_5678 % WORDS == 0x5678 && 0x1234_5678 / WORDS == 0x1234;
  }

  /** The buffer m after the bytes d have been stored at offset off. */
  function Splice(m: seq<byte>, off: nat, d: seq<byte>): (r: seq<byte>)
    requires off + |d| <= |m|
    ensures |r| == |m|
    ensures forall i :: 0 <= i < |m| ==> r[i] == if off <= i < off + |d| then d[i - off] else m[i]
  {
    m[..off] + d + m[off + |d|..]
  }

  lemma Assoc(a: seq<byte>, b: seq<byte>, c: seq<byte>)
    ensures (a + b) + c == a + (b + c)
  {
  }

  /** A word or double word in front of any bytes reads back as itself, and any two or four bytes are
      the coding of what is read from them. */
  lemma WordFront(v: word, rest: seq<byte>)
    ensures U16(Bytes16(v) + rest, 0) == v
  {
  }

  lemma DWordFront(v: dword, rest: seq<byte>)
    ensures U32(Bytes32(v) + rest, 0) == v
  {
    Assoc(Bytes16(v % WORDS), Bytes16(v / WORDS), rest);
    WordFront(v % WORDS, Bytes16(v / WORDS) + rest);
    WordFront(v / WORDS, rest);
  }

  lemma FrontWord(m: seq<byte>)
    requires 2 <= |m|
    ensures Bytes16(U16(m, 0)) == m[..2]
  {
  }

  lemma FrontDWord(m: seq<byte>)
    requires 4 <= |m|
    ensures Bytes32(U32(m, 0)) == m[..4]
  {
    var lo, hi := U16(m, 0), U16(m, 2);
    assert (lo + WORDS * hi) % WORDS == lo && (lo + WORDS * hi) / WORDS == hi;
  }

  lemma Split32(v: dword)
    ensures Bytes32(v) == [v % 0x100, v / 0x100 % 0x100, v / 0x1_0000 % 0x100, v / 0x100_0000]
  {
    var lo, hi := v % WORDS, v / WORDS;
    assert v == 0x100 * (0x100 * hi + lo / 0x100) + lo % 0x100;
    assert v / 0x100 == 0x100 * hi + lo / 0x100;
    assert v / 0x100_0000 == hi / 0x100;
  }

  method CapiMsgSetU8(m: array<byte>, off: nat, val: byte)
    requires off < m.Length
    modifies m
    ensures m[..] == Splice(old(m[..]), off, [val])
  {
    m[off] := val;
  }

  method CapiMsgSetU16(m: array<byte>, off: nat, val: word)
    requires off + 2 <= m.Length
    modifies m
    ensures m[..] == Splice(old(m[..]), off, Bytes16(val))
  {
    m[off] := val % 0x100;
    m[off + 1] := val / 0x100 % 0x100;
  }

  method CapiMsgSetU32(m: array<byte>, off: nat, val: dword)
    requires off + 4 <= m.Length
    modifies m
    ensures m[..] == Splice(old(m[..]), off, Bytes32(val))
  {
    var b0, b1, b2, b3 := val % 0x100, val / 0x100 % 0x100, val / 0x1_0000 % 0x100, val / 0x100_0000 % 0x100;
    Split32(val);
    m[off] := b0;
    m[off + 1] := b1;
    m[off + 2] := b2;
    m[off + 3] := b3;
  }
}
