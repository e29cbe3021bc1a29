/** Where the parameters of each message of CAPI 2.0 (Part I, chapter 5) lie in its bytes: the fixed ones at
    byte offsets, the structs one behind the other. */
module Offsets {
  import opened Wire
  import opened Grammar
  import opened Fields
  import opened Programs
  import opened Messages

  // ----- the parameters -----

  const ADDRESS: byte := 0x03
  const ADDITIONAL_INFO: byte := 0x04
  const B1_CONFIGURATION: byte := 0x05
  const B1_PROTOCOL: byte := 0x06
  const B2_CONFIGURATION: byte := 0x07
  const B2_PROTOCOL: byte := 0x08
  const B3_CONFIGURATION: byte := 0x09
  const B3_PROTOCOL: byte := 0x0a
  const BC: byte := 0x0b
  const B_CHANNEL_INFORMATION: byte := 0x0c
  const B_PROTOCOL: byte := 0x0d
  const CALLED_PARTY_NUMBER: byte := 0x0e
  const CALLED_PARTY_SUBADDRESS: byte := 0x0f
  const CALLING_PARTY_NUMBER: byte := 0x10
  const CALLING_PARTY_SUBADDRESS: byte := 0x11
  const CIP_MASK: byte := 0x12
  const CIP_MASK2: byte := 0x13
  const CIP_VALUE: byte := 0x14
  const CLASS: byte := 0x15
  const CONNECTED_NUMBER: byte := 0x16
  const CONNECTED_SUBADDRESS: byte := 0x17
  const DATA: byte := 0x18
  const DATA_HANDLE: byte := 0x19
  const DATA_LENGTH: byte := 0x1a
  const FACILITY_CONFIRMATION: byte := 0x1b
  const FACILITY_DATA: byte := 0x1c
  const FACILITY_INDICATION: byte := 0x1d
  const FACILITY_REQUEST: byte := 0x1e
  const FACILITY_SELECTOR: byte := 0x1f
  const FLAGS: byte := 0x20
  const FUNCTION: byte := 0x21
  const HLC: byte := 0x22
  const INFO_WORD: byte := 0x23
  const INFO_ELEMENT: byte := 0x24
  const INFO_MASK: byte := 0x25
  const INFO_NUMBER: byte := 0x26
  const KEYPAD_FACILITY: byte := 0x27
  const LLC: byte := 0x28
  const MANU_DATA: byte := 0x29
  const MANU_ID: byte := 0x2a
  const NCPI: byte := 0x2b
  const REASON: byte := 0x2c
  const REASON_B3: byte := 0x2d
  const REJECT: byte := 0x2e
  const USER_USER_DATA: byte := 0x2f

  // ----- places -----

  predicate WordAt(f: Fields, c: byte, m: seq<byte>, off: nat) { off + 2 <= |m| && f.Word(c) == U16(m, off) }

  predicate DWordAt(f: Fields, c: byte, m: seq<byte>, off: nat) { off + 4 <= |m| && f.DWord(c) == U32(m, off) }

  /** The bytes s start with these structs, one behind the other. */
  predicate StructsAt(f: Fields, codes: seq<byte>, s: seq<byte>)
    decreases |codes|
  {
    codes != [] ==>
      StructFits(s) && f.Struct(codes[0]) == Ptr(s[..StructSize(s)]) && StructsAt(f, codes[1..], s[StructSize(s)..])
  }

  /** What follows n structs. */
  function Behind(n: nat, s: seq<byte>): seq<byte> {
    if n == 0 || !StructFits(s) then s else Behind(n - 1, s[StructSize(s)..])
  }

  /** A composed struct: its first byte is zero when it is left to its default; otherwise the members follow
      the length prefix. */
  predicate Opens(f: Fields, c: byte, s: seq<byte>) {
    && s != [] && (f.IsDefault(c) <==> s[0] == 0)
    && (s[0] != 0 ==> PrefixSize(s) <= |s|)
  }

  const INFO_PARTS := [B_CHANNEL_INFORMATION, KEYPAD_FACILITY, USER_USER_DATA, FACILITY_DATA]

  predicate AdditionalInfoAt(f: Fields, s: seq<byte>) {
    Opens(f, ADDITIONAL_INFO, s) && (s[0] != 0 ==> StructsAt(f, INFO_PARTS, s[PrefixSize(s)..]))
  }

  const B_PARTS := [B1_CONFIGURATION, B2_CONFIGURATION, B3_CONFIGURATION]

  predicate BProtocolAt(f: Fields, s: seq<byte>) {
    && Opens(f, B_PROTOCOL, s)
    && (s[0] != 0 ==>
          var t := s[PrefixSize(s)..];
          && WordAt(f, B1_PROTOCOL, t, 0) && WordAt(f, B2_PROTOCOL, t, 2) && WordAt(f, B3_PROTOCOL, t, 4)
          && StructsAt(f, B_PARTS, t[6..]))
  }

  function BehindBProtocol(s: seq<byte>): seq<byte> {
    if s == [] then []
    else if s[0] == 0 then s[1..]
    else if PrefixSize(s) + 6 <= |s| then Behind(3, s[PrefixSize(s) + 6..])
    else []
  }

  // ----- every listed parameter is where the grammar puts it -----

  predicate Placed(items: Items, f: Fields, s: seq<byte>) {
    match items
    case Nil => true
    case Item(k, c, tail) => ScalarFits(k, s) && f.Get(k, c) == ScalarIn(k, s) && Placed(tail, f, s[ScalarSize(k, s)..])
    case Group(c, members, tail) =>
      && Opens(f, c, s)
      && if s[0] == 0 then Placed(tail, f, s[1..])
         else
           && Placed(members, f, s[PrefixSize(s)..]) && Decode(members, s[PrefixSize(s)..]).Parsed?
           && Placed(tail, f, Decode(members, s[PrefixSize(s)..]).rest)
  }

  lemma {:induction false} DecodedPlaced(items: Items, f: Fields, s: seq<byte>)
    requires Decode(items, s).Parsed? && Collect(items, f) == Decode(items, s).vals
    ensures Placed(items, f, s)
  {
    match items
    case Nil =>
    case Item(k, _, tail) => DecodedPlaced(tail, f, s[ScalarSize(k, s)..]);
    case Group(_, members, tail) =>
      if s[0] == 0 {
        DecodedPlaced(tail, f, s[1..]);
      } else {
        DecodedPlaced(members, f, s[PrefixSize(s)..]);
        DecodedPlaced(tail, f, Decode(members, s[PrefixSize(s)..]).rest);
      }
  }

  lemma ReadPlaced(m: seq<byte>)
    requires Read(m).Reading?
    ensures HEADER <= |m| && Placed(Read(m).header.Items(), Read(m).fields, m[HEADER..])
  {
    ReadParts(m);
    DecodedPlaced(Read(m).header.Items(), Read(m).fields, m[HEADER..]);
  }

  // ----- peeling off one parameter -----

  lemma PeelWord(c: byte, tail: Items, f: Fields, m: seq<byte>, off: nat)
    requires off <= |m| && Placed(Programs.W(c, tail), f, m[off..])
    ensures WordAt(f, c, m, off) && Placed(tail, f, m[off + 2..])
  {
    assert m[off..][2..] == m[off + 2..];
  }

  lemma PeelDWord(c: byte, tail: Items, f: Fields, m: seq<byte>, off: nat)
    requires off <= |m| && Placed(Programs.D(c, tail), f, m[off..])
    ensures DWordAt(f, c, m, off) && Placed(tail, f, m[off + 4..])
  {
    assert m[off..][4..] == m[off + 4..];
  }

  /** Structs with the given codes in front of tail. */
  function Structs(codes: seq<byte>, tail: Items): Items {
    if codes == [] then tail else Programs.S(codes[0], Structs(codes[1..], tail))
  }

  lemma {:induction false} PeelStructs(codes: seq<byte>, tail: Items, f: Fields, s: seq<byte>)
    requires Placed(Structs(codes, tail), f, s)
    ensures StructsAt(f, codes, s) && Placed(tail, f, Behind(|codes|, s))
    decreases |codes|
  {
    if codes != [] { PeelStructs(codes[1..], tail, f, s[StructSize(s)..]); }
  }

  lemma StructsAre(a: byte, b: byte, c: byte, d: byte, tail: Items)
    ensures Structs([a], tail) == Programs.S(a, tail)
    ensures Structs([a, b], tail) == Programs.S(a, Programs.S(b, tail))
    ensures Structs([a, b, c], tail) == Programs.S(a, Programs.S(b, Programs.S(c, tail)))
    ensures Structs([a, b, c, d], tail) == Programs.S(a, Programs.S(b, Programs.S(c, Programs.S(d, tail))))
  {
    var t1, t2, t3 := [d], [c, d], [b, c, d];
    assert [a][1..] == [] && [a, b][1..] == [b] && [b][1..] == [] && [a, b, c][1..] == [b, c] && [b, c][1..] == [c];
    assert [c][1..] == [] && [a, b, c, d][1..] == t3 && t3[1..] == t2 && t2[1..] == t1 && t1[1..] == [];
    assert Structs([b], tail) == Programs.S(b, tail) && Structs([c], tail) == Programs.S(c, tail);
    assert Structs([b, c], tail) == Programs.S(b, Programs.S(c, tail));
    assert Structs(t1, tail) == Programs.S(d, tail) && Structs(t2, tail) == Programs.S(c, Programs.S(d, tail));
    assert Structs(t3, tail) == Programs.S(b, Programs.S(c, Programs.S(d, tail)));
  }

  lemma {:induction false} BehindStructs(codes: seq<byte>, s: seq<byte>)
    requires Decode(Structs(codes, Nil), s).Parsed?
    ensures Decode(Structs(codes, Nil), s).rest == Behind(|codes|, s)
    decreases |codes|
  {
    if codes != [] { BehindStructs(codes[1..], s[StructSize(s)..]); }
  }

  lemma PeelInfo(tail: Items, f: Fields, s: seq<byte>)
    requires Placed(AdditionalInfo(tail), f, s)
    ensures AdditionalInfoAt(f, s)
  {
    StructsAre(0x0c, 0x27, 0x2f, 0x1c, Nil);
    if s[0] != 0 { PeelStructs(INFO_PARTS, Nil, f, s[PrefixSize(s)..]); }
  }

  function BMembers(): Items { Programs.W(0x06, Programs.W(0x08, Programs.W(0x0a, Structs(B_PARTS, Nil)))) }

  lemma PeelBMembers(f: Fields, t: seq<byte>)
    requires Placed(BMembers(), f, t) && Decode(BMembers(), t).Parsed?
    ensures WordAt(f, B1_PROTOCOL, t, 0) && WordAt(f, B2_PROTOCOL, t, 2) && WordAt(f, B3_PROTOCOL, t, 4)
    ensures StructsAt(f, B_PARTS, t[6..]) && Decode(BMembers(), t).rest == Behind(3, t[6..])
  {
    assert t[0..] == t;
    PeelWord(0x06, Programs.W(0x08, Programs.W(0x0a, Structs(B_PARTS, Nil))), f, t, 0);
    PeelWord(0x08, Programs.W(0x0a, Structs(B_PARTS, Nil)), f, t, 2);
    PeelWord(0x0a, Structs(B_PARTS, Nil), f, t, 4);
    PeelStructs(B_PARTS, Nil, f, t[6..]);
    BMembersRest(t);
    BehindStructs(B_PARTS, t[6..]);
  }

  lemma BMembersRest(t: seq<byte>)
    requires Decode(BMembers(), t).Parsed?
    ensures 6 <= |t| && Decode(Structs(B_PARTS, Nil), t[6..]).Parsed?
    ensures Decode(BMembers(), t).rest == Decode(Structs(B_PARTS, Nil), t[6..]).rest
  {
    var t1, t2 := t[2..], t[2..][2..];
    assert Decode(Programs.W(0x08, Programs.W(0x0a, Structs(B_PARTS, Nil))), t1).Parsed?;
    assert Decode(Programs.W(0x0a, Structs(B_PARTS, Nil)), t2).Parsed?;
    assert t2[2..] == t[6..];
  }

  lemma PeelBProtocol(tail: Items, f: Fields, s: seq<byte>)
    requires Placed(BProtocol(tail), f, s)
    ensures BProtocolAt(f, s) && Placed(tail, f, BehindBProtocol(s))
  {
    StructsAre(0x05, 0x07, 0x09, 0x09, Nil);
    assert BProtocol(tail) == Group(0x0d, BMembers(), tail);
    if s[0] != 0 {
      var t := s[PrefixSize(s)..];
      PeelBMembers(f, t);
      assert t[6..] == s[PrefixSize(s) + 6..];
    }
  }

  /** A struct is its bytes behind a length byte, or from 255 bytes on behind the escape 255 and a length word. */
  lemma StructForms(body: seq<byte>, rest: seq<byte>)
    requires |body| < WORDS
    ensures |body| <= 254 ==> Prefixed(body) == [|body|] + body
    ensures |body| >= 255 ==> Prefixed(body) == [255] + [|body| % 256, |body| / 256] + body
    ensures var s := Prefixed(body) + rest;
      StructFits(s) && StructSize(s) == |Prefixed(body)| && s[..StructSize(s)] == Prefixed(body)
  {
    if |body| >= 255 { WordFront(|body|, body + rest); }
    assert (Prefixed(body) + rest)[..|Prefixed(body)|] == Prefixed(body);
  }

  // ----- the messages -----

  predicate Is(m: seq<byte>, command: byte, subcommand: byte) {
    Read(m).Reading? && Read(m).header.command == command && Read(m).header.subcommand == subcommand
  }

  /** The header: length, application, command, subcommand, number; then the address. */
  lemma HeaderAt(m: seq<byte>)
    requires Read(m).Reading?
    ensures 12 <= |m| && Read(m).len == U16(m, 0)
    ensures Read(m).header == Header(U16(m, 2), m[4], m[5], U16(m, 6))
    ensures DWordAt(Read(m).fields, ADDRESS, m, 8)
  {
    ReadParts(m);
    AddressRead(m);
  }

  lemma Body(m: seq<byte>, tail: Items)
    requires Read(m).Reading? && Read(m).header.Items() == Addressed(tail)
    ensures 12 <= |m| && Placed(tail, Read(m).fields, m[12..])
  {
    ReadPlaced(m);
    PeelDWord(0x03, tail, Read(m).fields, m, 8);
  }

  /** ALERT_REQ and DISCONNECT_REQ have additional info; a B protocol alone is in SELECT_B_PROTOCOL_REQ. */
  lemma ClearingAt(m: seq<byte>)
    requires Is(m, ALERT, REQ) || Is(m, DISCONNECT, REQ)
    ensures 12 <= |m| && AdditionalInfoAt(Read(m).fields, m[12..])
  {
    Body(m, AdditionalInfo(Nil));
    PeelInfo(Nil, Read(m).fields, m[12..]);
  }

  lemma SelectReqAt(m: seq<byte>)
    requires Is(m, SELECT_B_PROTOCOL, REQ)
    ensures 12 <= |m| && BProtocolAt(Read(m).fields, m[12..])
  {
    Body(m, BProtocol(Nil));
    PeelBProtocol(Nil, Read(m).fields, m[12..]);
  }

  const PARTIES := [CALLED_PARTY_NUMBER, CALLING_PARTY_NUMBER, CALLED_PARTY_SUBADDRESS, CALLING_PARTY_SUBADDRESS]

  predicate CompatibilityAt(f: Fields, s: seq<byte>) {
    StructsAt(f, [BC, LLC, HLC], s) && AdditionalInfoAt(f, Behind(3, s))
  }

  lemma PeelCompatibility(f: Fields, s: seq<byte>)
    requires Placed(Compatibility(), f, s)
    ensures CompatibilityAt(f, s)
  {
    var t := AdditionalInfo(Nil);
    StructsAre(0x0b, 0x28, 0x22, 0x22, t);
    PeelStructs([BC, LLC, HLC], t, f, s);
    PeelInfo(Nil, f, Behind(3, s));
  }

  lemma CallingAt(m: seq<byte>, tail: Items)
    requires Read(m).Reading? && Read(m).header.Items() == Calling(tail)
    ensures 14 <= |m| && WordAt(Read(m).fields, CIP_VALUE, m, 12) && StructsAt(Read(m).fields, PARTIES, m[14..])
    ensures Placed(tail, Read(m).fields, Behind(4, m[14..]))
  {
    StructsAre(0x0e, 0x10, 0x0f, 0x11, tail);
    Body(m, Programs.W(0x14, Structs(PARTIES, tail)));
    PeelWord(0x14, Structs(PARTIES, tail), Read(m).fields, m, 12);
    PeelStructs(PARTIES, tail, Read(m).fields, m[14..]);
  }

  lemma ConnectReqAt(m: seq<byte>)
    requires Is(m, CONNECT, REQ)
    ensures 14 <= |m| && WordAt(Read(m).fields, CIP_VALUE, m, 12) && StructsAt(Read(m).fields, PARTIES, m[14..])
    ensures var s := Behind(4, m[14..]);
      BProtocolAt(Read(m).fields, s) && CompatibilityAt(Read(m).fields, BehindBProtocol(s))
  {
    CallingAt(m, BProtocol(Compatibility()));
    var s := Behind(4, m[14..]);
    PeelBProtocol(Compatibility(), Read(m).fields, s);
    PeelCompatibility(Read(m).fields, BehindBProtocol(s));
  }

  lemma ConnectIndAt(m: seq<byte>)
    requires Is(m, CONNECT, IND)
    ensures 14 <= |m| && WordAt(Read(m).fields, CIP_VALUE, m, 12) && StructsAt(Read(m).fields, PARTIES, m[14..])
    ensures CompatibilityAt(Read(m).fields, Behind(4, m[14..]))
  {
    CallingAt(m, Compatibility());
    PeelCompatibility(Read(m).fields, Behind(4, m[14..]));
  }

  const CONNECTED := [CONNECTED_NUMBER, CONNECTED_SUBADDRESS, LLC]

  lemma ConnectRespAt(m: seq<byte>)
    requires Is(m, CONNECT, RESP)
    ensures 14 <= |m| && WordAt(Read(m).fields, REJECT, m, 12) && BProtocolAt(Read(m).fields, m[14..])
    ensures var s := BehindBProtocol(m[14..]);
      StructsAt(Read(m).fields, CONNECTED, s) && AdditionalInfoAt(Read(m).fields, Behind(3, s))
  {
    var t := AdditionalInfo(Nil);
    StructsAre(0x16, 0x17, 0x28, 0x28, t);
    var u := BProtocol(Structs(CONNECTED, t));
    Body(m, Programs.W(0x2e, u));
    PeelWord(0x2e, u, Read(m).fields, m, 12);
    PeelBProtocol(Structs(CONNECTED, t), Read(m).fields, m[14..]);
    PeelStructs(CONNECTED, t, Read(m).fields, BehindBProtocol(m[14..]));
    PeelInfo(Nil, Read(m).fields, Behind(3, BehindBProtocol(m[14..])));
  }

  lemma ConnectActiveIndAt(m: seq<byte>)
    requires Is(m, CONNECT_ACTIVE, IND)
    ensures 12 <= |m| && StructsAt(Read(m).fields, CONNECTED, m[12..])
  {
    StructsAre(0x16, 0x17, 0x28, 0x28, Nil);
    Body(m, Structs(CONNECTED, Nil));
    PeelStructs(CONNECTED, Nil, Read(m).fields, m[12..]);
  }

  lemma ListenReqAt(m: seq<byte>)
    requires Is(m, LISTEN, REQ)
    ensures var f := Read(m).fields;
      && DWordAt(f, INFO_MASK, m, 12) && DWordAt(f, CIP_MASK, m, 16) && DWordAt(f, CIP_MASK2, m, 20)
      && StructsAt(f, [CALLING_PARTY_NUMBER, CALLING_PARTY_SUBADDRESS], m[24..])
  {
    var f, t := Read(m).fields, Structs([CALLING_PARTY_NUMBER, CALLING_PARTY_SUBADDRESS], Nil);
    StructsAre(0x10, 0x11, 0x11, 0x11, Nil);
    Body(m, Programs.D(0x25, Programs.D(0x12, Programs.D(0x13, t))));
    PeelDWord(0x25, Programs.D(0x12, Programs.D(0x13, t)), f, m, 12);
    PeelDWord(0x12, Programs.D(0x13, t), f, m, 16);
    PeelDWord(0x13, t, f, m, 20);
    PeelStructs([CALLING_PARTY_NUMBER, CALLING_PARTY_SUBADDRESS], Nil, f, m[24..]);
  }

  lemma InfoReqAt(m: seq<byte>)
    requires Is(m, INFO, REQ)
    ensures 12 <= |m| && StructsAt(Read(m).fields, [CALLED_PARTY_NUMBER], m[12..])
    ensures AdditionalInfoAt(Read(m).fields, Behind(1, m[12..]))
  {
    var t := AdditionalInfo(Nil);
    StructsAre(0x0e, 0x0e, 0x0e, 0x0e, t);
    Body(m, Structs([CALLED_PARTY_NUMBER], t));
    PeelStructs([CALLED_PARTY_NUMBER], t, Read(m).fields, m[12..]);
    PeelInfo(Nil, Read(m).fields, Behind(1, m[12..]));
  }

  /** Messages with a word behind the address and then at most one struct. */
  lemma WordThenStruct(m: seq<byte>, w: byte, s: byte)
    requires Read(m).Reading? && Read(m).header.Items() == Addressed(Programs.W(w, Programs.S(s, Nil)))
    ensures 14 <= |m| && WordAt(Read(m).fields, w, m, 12) && StructsAt(Read(m).fields, [s], m[14..])
  {
    StructsAre(s, s, s, s, Nil);
    Body(m, Programs.W(w, Structs([s], Nil)));
    PeelWord(w, Structs([s], Nil), Read(m).fields, m, 12);
    PeelStructs([s], Nil, Read(m).fields, m[14..]);
  }

  lemma FacilityReqAt(m: seq<byte>)
    requires Is(m, FACILITY, REQ)
    ensures 14 <= |m| && WordAt(Read(m).fields, FACILITY_SELECTOR, m, 12)
    ensures StructsAt(Read(m).fields, [FACILITY_REQUEST], m[14..])
  {
    WordThenStruct(m, 0x1f, 0x1e);
  }

  lemma FacilityIndAt(m: seq<byte>)
    requires Is(m, FACILITY, IND)
    ensures 14 <= |m| && WordAt(Read(m).fields, FACILITY_SELECTOR, m, 12)
    ensures StructsAt(Read(m).fields, [FACILITY_INDICATION], m[14..])
  {
    WordThenStruct(m, 0x1f, 0x1d);
  }

  lemma InfoIndAt(m: seq<byte>)
    requires Is(m, INFO, IND)
    ensures 14 <= |m| && WordAt(Read(m).fields, INFO_NUMBER, m, 12)
    ensures StructsAt(Read(m).fields, [INFO_ELEMENT], m[14..])
  {
    WordThenStruct(m, 0x26, 0x24);
  }

  lemma DisconnectB3IndAt(m: seq<byte>)
    requires Is(m, DISCONNECT_B3, IND)
    ensures 14 <= |m| && WordAt(Read(m).fields, REASON_B3, m, 12) && StructsAt(Read(m).fields, [NCPI], m[14..])
  {
    WordThenStruct(m, 0x2d, 0x2b);
  }

  lemma ConnectB3RespAt(m: seq<byte>)
    requires Is(m, CONNECT_B3, RESP)
    ensures 14 <= |m| && WordAt(Read(m).fields, REJECT, m, 12) && StructsAt(Read(m).fields, [NCPI], m[14..])
  {
    WordThenStruct(m, 0x2e, 0x2b);
  }

  lemma FacilityConfAt(m: seq<byte>)
    requires Is(m, FACILITY, CONF)
    ensures 16 <= |m| && WordAt(Read(m).fields, INFO_WORD, m, 12) && WordAt(Read(m).fields, FACILITY_SELECTOR, m, 14)
    ensures StructsAt(Read(m).fields, [FACILITY_CONFIRMATION], m[16..])
  {
    var t := Structs([FACILITY_CONFIRMATION], Nil);
    StructsAre(0x1b, 0x1b, 0x1b, 0x1b, Nil);
    Body(m, Programs.W(0x23, Programs.W(0x1f, t)));
    PeelWord(0x23, Programs.W(0x1f, t), Read(m).fields, m, 12);
    PeelWord(0x1f, t, Read(m).fields, m, 14);
    PeelStructs([FACILITY_CONFIRMATION], Nil, Read(m).fields, m[16..]);
  }

  /** The handle of a data confirmation is in front of its info. */
  lemma DataB3ConfAt(m: seq<byte>)
    requires Is(m, DATA_B3, CONF)
    ensures WordAt(Read(m).fields, DATA_HANDLE, m, 12) && WordAt(Read(m).fields, INFO_WORD, m, 14)
  {
    Body(m, Programs.W(0x19, Programs.W(0x23, Nil)));
    PeelWord(0x19, Programs.W(0x23, Nil), Read(m).fields, m, 12);
    PeelWord(0x23, Nil, Read(m).fields, m, 14);
  }

  lemma DataB3At(m: seq<byte>)
    requires Is(m, DATA_B3, REQ) || Is(m, DATA_B3, IND)
    ensures var f := Read(m).fields;
      && DWordAt(f, DATA, m, 12) && WordAt(f, DATA_LENGTH, m, 16) && WordAt(f, DATA_HANDLE, m, 18)
      && WordAt(f, FLAGS, m, 20)
  {
    var f, t := Read(m).fields, Programs.W(0x19, Programs.W(0x20, Nil));
    Body(m, Programs.D(0x18, Programs.W(0x1a, t)));
    PeelDWord(0x18, Programs.W(0x1a, t), f, m, 12);
    PeelWord(0x1a, t, f, m, 16);
    PeelWord(0x19, Programs.W(0x20, Nil), f, m, 18);
    PeelWord(0x20, Nil, f, m, 20);
  }

  lemma ManufacturerAt(m: seq<byte>)
    requires Read(m).Reading? && Read(m).header.command == MANUFACTURER && REQ <= Read(m).header.subcommand <= RESP
    ensures var f := Read(m).fields;
      && DWordAt(f, MANU_ID, m, 12) && DWordAt(f, CLASS, m, 16) && DWordAt(f, FUNCTION, m, 20)
      && StructsAt(f, [MANU_DATA], m[24..])
  {
    var f, t := Read(m).fields, Structs([MANU_DATA], Nil);
    StructsAre(0x29, 0x29, 0x29, 0x29, Nil);
    Body(m, Programs.D(0x2a, Programs.D(0x15, Programs.D(0x21, t))));
    PeelDWord(0x2a, Programs.D(0x15, Programs.D(0x21, t)), f, m, 12);
    PeelDWord(0x15, Programs.D(0x21, t), f, m, 16);
    PeelDWord(0x21, t, f, m, 20);
    PeelStructs([MANU_DATA], Nil, f, m[24..]);
  }

  // ----- messages with one parameter behind the address, or none -----

  lemma OneWord(m: seq<byte>, w: byte)
    requires Read(m).Reading? && Read(m).header.Items() == Addressed(Programs.W(w, Nil))
    ensures WordAt(Read(m).fields, w, m, 12)
  {
    Body(m, Programs.W(w, Nil));
    PeelWord(w, Nil, Read(m).fields, m, 12);
  }

  /** Every confirmation other than the two above and MANUFACTURER_CONF has its info at offset 12. */
  lemma ConfAt(m: seq<byte>, c: byte)
    requires Is(m, c, CONF) && c != FACILITY && c != DATA_B3 && c != MANUFACTURER
    ensures WordAt(Read(m).fields, INFO_WORD, m, 12)
  {
    OneWord(m, 0x23);
  }

  lemma DisconnectIndAt(m: seq<byte>)
    requires Is(m, DISCONNECT, IND)
    ensures WordAt(Read(m).fields, REASON, m, 12)
  {
    OneWord(m, 0x2c);
  }

  lemma FacilityRespAt(m: seq<byte>)
    requires Is(m, FACILITY, RESP)
    ensures WordAt(Read(m).fields, FACILITY_SELECTOR, m, 12)
  {
    OneWord(m, 0x1f);
  }

  lemma DataB3RespAt(m: seq<byte>)
    requires Is(m, DATA_B3, RESP)
    ensures WordAt(Read(m).fields, DATA_HANDLE, m, 12)
  {
    OneWord(m, 0x19);
  }

  /** Requests and indications that carry nothing but an NCPI. */
  lemma NcpiAt(m: seq<byte>)
    requires Is(m, CONNECT_B3, REQ) || Is(m, DISCONNECT_B3, REQ) || Is(m, RESET_B3, REQ) || Is(m, CONNECT_B3, IND)
      || Is(m, CONNECT_B3_ACTIVE, IND) || Is(m, RESET_B3, IND) || Is(m, CONNECT_B3_T90_ACTIVE, IND)
    ensures 12 <= |m| && StructsAt(Read(m).fields, [NCPI], m[12..])
  {
    StructsAre(0x2b, 0x2b, 0x2b, 0x2b, Nil);
    Body(m, Structs([NCPI], Nil));
    PeelStructs([NCPI], Nil, Read(m).fields, m[12..]);
  }

  /** The other responses end behind the address. */
  lemma AddressOnly(m: seq<byte>, c: byte)
    requires c in {CONNECT_ACTIVE, DISCONNECT, INFO, CONNECT_B3_ACTIVE, DISCONNECT_B3, RESET_B3, CONNECT_B3_T90_ACTIVE}
    requires Is(m, c, RESP)
    ensures 12 <= |m| && Read(m).rest == m[12..]
  {
    AddressRead(m);
    var s := m[HEADER..];
    assert Decode(Addressed(Nil), s).rest == s[4..] && s[4..] == m[12..];
  }
}
