/** The D-channel trace of capidrv.c: what handle_dtrace_data writes into the 4096-byte ring and what
    if_readstat gets out of it. */
module TraceRing {
  import opened Wire

  const SIZE := 4096

  // ----- the text -----

  function Digit(w: nat): (b: byte)
    requires w < 16
    ensures Value(b) == w
  {
    if w < 10 then 0x30 + w else 0x41 - 10 + w
  }

  /** The value of a hexadecimal digit, 16 for any other character. */
  function Value(b: byte): nat
  {
    if 0x30 <= b < 0x3a then b - 0x30 else if 0x41 <= b < 0x47 then b - 0x41 + 10 else 16
  }

  /** One data byte: a blank and two digits. */
  function Pair(b: byte): (t: seq<byte>)
    ensures |t| == 3 && t[0] == 0x20
    ensures Value(t[1]) < 16 && Value(t[2]) < 16 && 16 * Value(t[1]) + Value(t[2]) == b
  {
    [0x20, Digit(b / 16), Digit(b % 16)]
  }

  function Hex(data: seq<byte>): (t: seq<byte>)
    ensures |t| == 3 * |data|
  {
    if data == [] then [] else Pair(data[0]) + Hex(data[1..])
  }

  /** "D2" or "D3", the direction and a colon. */
  function Head(send: bool, level2: bool): (t: seq<byte>)
    ensures |t| == 4
  {
    [0x44, if level2 then 0x32 else 0x33, if send then 0x3e else 0x3c, 0x3a]
  }

  /** One trace line: the head, the data in hexadecimal and a newline. */
  function Text(send: bool, level2: bool, data: seq<byte>): (t: seq<byte>)
    ensures |t| == 3 * |data| + 5
  {
    Head(send, level2) + Hex(data) + [0x0a]
  }

  /** Reading the hexadecimal digits back, up to the newline. */
  function FromHex(t: seq<byte>): seq<byte>
    requires |t| % 3 == 1
  {
    if |t| == 1 || Value(t[1]) >= 16 || Value(t[2]) >= 16 then []
    else [16 * Value(t[1]) + Value(t[2])] + FromHex(t[3..])
  }

  lemma {:induction false} HexBack(data: seq<byte>)
    ensures FromHex(Hex(data) + [0x0a]) == data
  {
    if data == [] {
      assert FromHex([0x0a]) == [];
    } else {
      var t, rest := Hex(data) + [0x0a], Hex(data[1..]) + [0x0a];
      assert t == Pair(data[0]) + rest;
      assert t[3..] == rest;
      HexBack(data[1..]);
    }
  }

  /** The characters of a text. */
  function Chars(s: string): seq<byte>
    requires forall i :: 0 <= i < |s| ==> s[i] < 128 as char
  {
    seq(|s|, i requires 0 <= i < |s| => s[i] as int)
  }

  lemma DigitSpelled(w: nat)
    requires w < 16
    ensures Digit(w) == "0123456789ABCDEF"[w] as int
  {
    assert "0123456789ABCDEF"[..10] == "0123456789" && "0123456789ABCDEF"[10..] == "ABCDEF";
  }

  /** A trace line begins with layer and direction, ends with a newline, and its hexadecimal text determines
      the data. */
  lemma TextTells(send: bool, level2: bool, data: seq<byte>)
    ensures var t := Text(send, level2, data);
      && t[..4] == Chars(if level2 then if send then "D2>:" else "D2<:" else if send then "D3>:" else "D3<:")
      && t[|t| - 1] == 0x0a && FromHex(t[4..]) == data
  {
    assert Text(send, level2, data)[..4] == Head(send, level2);
    assert Text(send, level2, data)[4..] == Hex(data) + [0x0a];
    HexBack(data);
  }

  // ----- the ring -----

  /** The last position below n that shares a place in the ring with position k. */
  function Latest(n: nat, k: nat): (p: nat)
    requires k < n
    ensures k <= p < n && n - p <= SIZE && p % SIZE == k % SIZE
    decreases n - k
  {
    if n - k <= SIZE then k else (SamePlace(k); Latest(n, k + SIZE))
  }

  lemma SamePlace(k: nat)
    ensures (k + SIZE) % SIZE == k % SIZE
  {
  }

  lemma NextPlace(k: nat)
    ensures (k + 1) % SIZE == if k % SIZE + 1 > SIZE - 1 then 0 else k % SIZE + 1
  {
  }

  /** Two positions in the ring at the same time are in different places. */
  lemma Places(i: nat, j: nat)
    requires i < j < i + SIZE
    ensures i % SIZE != j % SIZE
  {
  }

  lemma Regroup(a: seq<byte>, b: seq<byte>, c: seq<byte>)
    ensures a + (b + c) == (a + b) + c
  {
  }

  class Ring {
    const buf: array<byte>
    var read: nat
    var write: nat
    /** Everything ever written, and how much was read. */
    ghost var written: seq<byte>
    ghost var taken: nat

    ghost predicate Valid()
      reads this, buf
    {
      && buf.Length == SIZE && write == |written| % SIZE && read == taken % SIZE
      && forall k :: 0 <= k < |written| && |written| - k <= SIZE ==> Kept(k)
    }

    ghost predicate Kept(k: nat)
      requires buf.Length == SIZE && k < |written|
      reads this, buf
    {
      buf[k % SIZE] == written[k]
    }

    constructor ()
      ensures Valid() && fresh(buf) && written == [] && taken == 0
    {
      buf := new byte[SIZE](_ => 0);
      read, write, written, taken := 0, 0, [], 0;
    }

    /** PUTBYTE_TO_STATUS. */
    method PutByte(b: byte)
      requires Valid()
      modifies this`write, this`written, buf
      ensures Valid() && written == old(written) + [b]
    {
      buf[write] := b;
      NextPlace(|written|);
      write := write + 1;
      if write > SIZE - 1 { write := 0; }
      written := written + [b];
      forall k | 0 <= k < |written| && |written| - k <= SIZE ensures Kept(k) {
        if k < |written| - 1 {
          assert old(Kept(k));
          Places(k, |written| - 1);
        }
      }
    }

    /** One byte of data: a blank and its two digits. */
    method PutPair(b: byte)
      requires Valid()
      modifies this`write, this`written, buf
      ensures Valid() && written == old(written) + Pair(b)
    {
      PutByte(0x20);
      PutByte(Digit(b / 16));
      PutByte(Digit(b % 16));
    }

    method PutHead(send: bool, level2: bool)
      requires Valid()
      modifies this`write, this`written, buf
      ensures Valid() && written == old(written) + Head(send, level2)
    {
      PutByte(0x44);
      PutByte(if level2 then 0x32 else 0x33);
      PutByte(if send then 0x3e else 0x3c);
      PutByte(0x3a);
    }

    method PutData(data: seq<byte>)
      requires Valid()
      modifies this`write, this`written, buf
      ensures Valid() && written == old(written) + Hex(data)
    {
      ghost var start := written;
      var p := 0;
      while p < |data|
        invariant p <= |data| && Valid() && written + Hex(data[p..]) == start + Hex(data)
      {
        ghost var done := written;
        PutPair(data[p]);
        assert data[p..][1..] == data[p + 1..];
        Regroup(done, Pair(data[p]), Hex(data[p + 1..]));
        p := p + 1;
      }
    }

    /** The number announced with ISDN_STAT_STAVAIL is the number of bytes this call has put in. */
    method HandleDtraceData(send: bool, level2: bool, data: seq<byte>) returns (available: nat)
      requires Valid()
      modifies this`write, this`written, buf
      ensures Valid() && available == |written| - |old(written)|
      ensures written == if data == [] then old(written) else old(written) + Text(send, level2, data)
    {
      if data == [] { return 0; }
      PutHead(send, level2);
      PutData(data);
      PutByte(0x0a);
      Regroup(old(written), Head(send, level2), Hex(data));
      Regroup(old(written), Head(send, level2) + Hex(data), [0x0a]);
      available := |data| * 3 + 5;
    }

    method TakeByte() returns (b: byte)
      requires Valid()
      modifies this`read, this`taken
      ensures Valid() && taken == old(taken) + 1
      ensures old(taken) < |written| ==> b == written[Latest(|written|, old(taken))]
    {
      assert taken < |written| ==> Kept(Latest(|written|, taken));
      NextPlace(taken);
      b := buf[read];
      read := read + 1;
      if read > SIZE - 1 { read := 0; }
      taken := taken + 1;
      forall k | 0 <= k < |written| && |written| - k <= SIZE ensures Kept(k) {
        assert old(Kept(k));
      }
    }

    /** if_readstat takes whatever comes next in the ring; a reader that is behind by no more than the
        ring holds, and asks for no more than there is, gets exactly what was written. */
    method ReadStat(len: nat) returns (out: seq<byte>)
      requires Valid()
      modifies this`read, this`taken
      ensures Valid() && |out| == len && taken == old(taken) + len
      ensures forall i :: 0 <= i < len && old(taken) + i < |written| ==>
        out[i] == written[Latest(|written|, old(taken) + i)]
      ensures old(taken) + len <= |written| <= old(taken) + SIZE ==> out == written[old(taken)..old(taken) + len]
    {
      out := [];
      var count := 0;
      while count < len
        invariant count <= len && Valid() && |out| == count && taken == old(taken) + count
        invariant forall i :: 0 <= i < count && old(taken) + i < |written| ==>
          out[i] == written[Latest(|written|, old(taken) + i)]
      {
        var b := TakeByte();
        out := out + [b];
        count := count + 1;
      }
    }
  }
}
