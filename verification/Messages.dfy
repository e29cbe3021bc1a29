/** Whole messages: what capi_cmsg2message leaves in a buffer, what capi_message2cmsg makes of one, and
    how the two fit together. */
module Messages {
  import opened Wire
  import opened Grammar
  import opened Writer
  import opened Fields
  import opened Programs

  datatype Header = Header(applId: word, command: byte, subcommand: byte, number: word) {
    /** capi_cmsg_answer: set the lowest bit of the subcommand. */
    function Answer(): Header {
      if subcommand % 2 == 0 then this.(subcommand := subcommand + 1) else this
    }

    predicate Known() { Layout(command, subcommand).Some? }

    function Items(): Items
      requires Known()
    {
      Layout(command, subcommand).value
    }
  }

  const HEADER := 8

  function HeaderBytes(len: nat, h: Header): (b: seq<byte>)
    ensures |b| == HEADER
  {
    Bytes16(len % WORDS) + Bytes16(h.applId) + [h.command, h.subcommand] + Bytes16(h.number)
  }

  function HeaderOf(m: seq<byte>): Header
    requires HEADER <= |m|
  {
    Header(U16(m, 2), m[4], m[5], U16(m, 6))
  }

  /** The message written for a header and the values of its parameters. */
  function Message(h: Header, v: Values): (m: seq<byte>) {
    HeaderBytes(HEADER + |Written(v)|, h) + Written(v)
  }

  datatype Reading = Malformed | Reading(header: Header, fields: Fields, len: word, rest: seq<byte>)

  /** What is read from the bytes m: header, fields, the length word, and the bytes behind the message.
      The length word plays no part in reading. */
  function Read(m: seq<byte>): (r: Reading)
    ensures r.Reading? ==> r.header.Known() && HEADER + |r.rest| <= |m|
  {
    if |m| < HEADER || !HeaderOf(m).Known() then Malformed
    else
      match Decode(HeaderOf(m).Items(), m[HEADER..])
      case Bad => Malformed
      case Parsed(v, rest) => Reading(HeaderOf(m), Store(v, CLEARED), U16(m, 0), rest)
  }

  lemma HeaderFront(len: nat, h: Header, s: seq<byte>)
    ensures var m := HeaderBytes(len, h) + s;
      HeaderOf(m) == h && U16(m, 0) == len % WORDS && m[HEADER..] == s
  {
  }

  lemma FrontHeader(m: seq<byte>, len: nat)
    requires HEADER <= |m|
    ensures m[..HEADER] == HeaderBytes(len, HeaderOf(m)) <==> U16(m, 0) == len % WORDS
  {
    var b := HeaderBytes(U16(m, 0), HeaderOf(m));
    assert m[..HEADER] == b by { HeaderFrontBytes(m); }
    HeaderFront(len, HeaderOf(m), []);
    HeaderFront(U16(m, 0), HeaderOf(m), []);
    assert b + [] == b && HeaderBytes(len, HeaderOf(m)) + [] == HeaderBytes(len, HeaderOf(m));
  }

  lemma HeaderFrontBytes(m: seq<byte>)
    requires HEADER <= |m|
    ensures m[..HEADER] == HeaderBytes(U16(m, 0), HeaderOf(m))
  {
    forall off | off == 0 || off == 2 || off == 6 ensures Bytes16(U16(m, off)) == [m[off], m[off + 1]] {
    }
  }

  // ----- writing, then reading -----

  /** What a structure f has become in g by being written and read: every listed field is back, a null
      struct as an empty one, and the members of a struct left to its default are zero. */
  predicate Restored(items: Items, f: Fields, g: Fields) {
    match items
    case Nil => true
    case Item(k, c, tail) => g.Get(k, c) == f.Get(k, c).Normal() && Restored(tail, f, g)
    case Group(c, members, tail) =>
      && g.IsDefault(c) == f.IsDefault(c)
      && (if f.IsDefault(c) then forall d <- Codes(members) :: g.Zero(d) else Restored(members, f, g))
      && Restored(tail, f, g)
  }

  lemma NormalShape(v: Values)
    ensures Shape(Normal(v)) == Shape(v) && Stored(Normal(v)) == Stored(v)
  {
  }

  lemma {:induction false} RestoredBy(items: Items, f: Fields, g: Fields)
    requires Distinct(items) && Collect(items, g) == Normal(Collect(items, f))
    requires forall c <- Codes(items) - Stored(Collect(items, f)) :: g.Zero(c)
    ensures Restored(items, f, g)
  {
    match items
    case Nil =>
    case Item(_, _, tail) =>
      StoredListed(Collect(tail, f));
      RestoredBy(tail, f, g);
    case Group(c, members, tail) =>
      StoredListed(Collect(tail, f));
      if !f.IsDefault(c) {
        StoredListed(Collect(members, f));
        RestoredBy(members, f, g);
      }
      RestoredBy(tail, f, g);
  }

  /** Writing and reading back restores every listed field and leaves all other fields zero. */
  lemma FieldsRestored(items: Items, f: Fields, g: Fields)
    requires Distinct(items) && g == Store(Normal(Collect(items, f)), CLEARED)
    ensures Restored(items, f, g) && forall c :: c !in Codes(items) ==> g.Zero(c)
  {
    var v := Collect(items, f);
    NormalShape(v);
    CollectStore(Normal(v), CLEARED);
    StoredListed(v);
    forall c | c !in Stored(v) ensures g.Zero(c) {
      StoreFrame(Normal(v), CLEARED, c);
    }
    RestoredBy(items, f, g);
  }

  lemma {:induction false} RestoredCollect(items: Items, f: Fields, g: Fields)
    requires Restored(items, f, g)
    ensures Collect(items, g) == Normal(Collect(items, f))
  {
    match items
    case Nil =>
    case Item(_, _, tail) => RestoredCollect(tail, f, g);
    case Group(c, members, tail) =>
      if !f.IsDefault(c) { RestoredCollect(members, f, g); }
      RestoredCollect(tail, f, g);
  }

  /** The reading r of a message of n bytes gives back the header h and the fields of f, all other fields
      zero, the exact length, and stops where rest begins. */
  predicate Faithful(r: Reading, n: nat, rest: seq<byte>, h: Header, items: Items, f: Fields) {
    && r.Reading? && r.header == h && r.len == n && r.rest == rest
    && Restored(items, f, r.fields) && forall c :: c !in Codes(items) ==> r.fields.Zero(c)
  }

  lemma MessageParts(h: Header, v: Values, rest: seq<byte>)
    ensures var m := Message(h, v) + rest;
      && HEADER <= |m| && HeaderOf(m) == h && U16(m, 0) == |Message(h, v)| % WORDS
      && m[HEADER..] == Written(v) + rest
  {
    var w := Written(v);
    Assoc(HeaderBytes(HEADER + |w|, h), w, rest);
    HeaderFront(HEADER + |w|, h, w + rest);
  }

  /** Storing decoded values and collecting them again gives them back, for every message of the table. */
  lemma CollectBack(h: Header, s: seq<byte>)
    requires h.Known()
    ensures var q := Decode(h.Items(), s); q.Parsed? ==> Collect(h.Items(), Store(q.vals, CLEARED)) == q.vals
  {
    TableSound(h.command, h.subcommand);
    var q := Decode(h.Items(), s);
    if q.Parsed? { CollectStore(q.vals, CLEARED); }
  }

  lemma ReadMessage(h: Header, v: Values, rest: seq<byte>)
    requires h.Known() && Shape(v) == h.Items()
    ensures var r := Read(Message(h, v) + rest);
      match Decode(h.Items(), Written(v) + rest)
      case Bad => r.Malformed?
      case Parsed(vals, tail) =>
        r == Reading(h, Store(vals, CLEARED), |Message(h, v)| % WORDS, tail)
        && Collect(h.Items(), r.fields) == vals
  {
    MessageParts(h, v, rest);
    CollectBack(h, Written(v) + rest);
  }

  lemma FaithfulWhenShort(items: Items, f: Fields, n: nat, rest: seq<byte>, r: Reading, h: Header)
    requires Distinct(items) && Valid(Collect(items, f))
    requires var q := Decode(items, Written(Collect(items, f)) + rest);
      if q.Bad? then r.Malformed?
      else r == Reading(h, Store(q.vals, CLEARED), n % WORDS, q.rest) && Collect(items, r.fields) == q.vals
    ensures Faithful(r, n, rest, h, items, f) <==> AllShort(Collect(items, f)) && n < WORDS
  {
    var v := Collect(items, f);
    RoundTrip(v, rest);
    if Faithful(r, n, rest, h, items, f) {
      RestoredCollect(items, f, r.fields);
    }
    if AllShort(v) {
      FieldsRestored(items, f, Store(Normal(v), CLEARED));
    }
  }

  /** The central law of the codec, for every message of CAPI 2.0: what is written is read back faithfully
      exactly when no composed struct has 255 bytes or more and the message fits its length word. */
  lemma MessageRoundTrip(h: Header, f: Fields, rest: seq<byte>)
    requires h.Known() && Valid(Collect(h.Items(), f))
    ensures var v := Collect(h.Items(), f);
      var m := Message(h, v);
      Faithful(Read(m + rest), |m|, rest, h, h.Items(), f) <==> AllShort(v) && |m| < WORDS
  {
    var v := Collect(h.Items(), f);
    var m := Message(h, v);
    TableSound(h.command, h.subcommand);
    ReadMessage(h, v, rest);
    FaithfulWhenShort(h.Items(), f, |m|, rest, Read(m + rest), h);
  }

  // ----- a message that is not read back -----

  function Zeros(n: nat): (z: seq<byte>)
    ensures |z| == n
  {
    seq(n, _ => 0)
  }

  /** A CONNECT_REQ that is cleared but for a B1configuration of 255 bytes, in the escape form. */
  const LONG_B1 := CLEARED.Set(0x05, S(Ptr([0xff] + Bytes16(255) + Zeros(255))))

  lemma {:induction false} CollectValid(items: Items, f: Fields)
    requires WellFormed(items) && forall c: byte :: S(f.Struct(c)).Valid()
    ensures Valid(Collect(items, f))
  {
    match items
    case Nil =>
    case Item(_, c, tail) =>
      assert S(f.Struct(c)).Valid();
      CollectValid(tail, f);
    case Group(_, members, tail) =>
      CollectValid(members, f);
      CollectValid(tail, f);
  }

  /** A parameter that is not composed adds its own bytes and is never too long. */
  lemma ScalarAdds(k: Kind, c: byte, tail: Items, f: Fields)
    ensures var v := Collect(Items.Item(k, c, tail), f);
      && (AllShort(v) <==> AllShort(Collect(tail, f)))
      && |Written(v)| == |f.Get(k, c).Code()| + |Written(Collect(tail, f))|
  {
  }

  lemma LongBProtocol(tail: Items)
    ensures !AllShort(Collect(BProtocol(tail), LONG_B1))
  {
    var b1 := Programs.S(0x05, Programs.S(0x07, Programs.S(0x09, Nil)));
    ScalarAdds(StructKind, 0x05, Programs.S(0x07, Programs.S(0x09, Nil)), LONG_B1);
    ScalarAdds(WordKind, 0x0a, b1, LONG_B1);
    ScalarAdds(WordKind, 0x08, Programs.W(0x0a, b1), LONG_B1);
    ScalarAdds(WordKind, 0x06, Programs.W(0x08, Programs.W(0x0a, b1)), LONG_B1);
    assert |LONG_B1.Get(StructKind, 0x05).Code()| == 258;
  }

  lemma LongCalling(tail: Items)
    requires !AllShort(Collect(tail, LONG_B1))
    ensures !AllShort(Collect(Calling(tail), LONG_B1))
  {
    var t1 := Programs.S(0x11, tail);
    var t2 := Programs.S(0x0f, t1);
    var t3 := Programs.S(0x10, t2);
    var t4 := Programs.S(0x0e, t3);
    ScalarAdds(StructKind, 0x11, tail, LONG_B1);
    ScalarAdds(StructKind, 0x0f, t1, LONG_B1);
    ScalarAdds(StructKind, 0x10, t2, LONG_B1);
    ScalarAdds(StructKind, 0x0e, t3, LONG_B1);
    ScalarAdds(WordKind, 0x14, t4, LONG_B1);
    ScalarAdds(DWordKind, 0x03, Programs.W(0x14, t4), LONG_B1);
  }

  lemma LongCall(tail: Items)
    ensures !AllShort(Collect(Calling(BProtocol(tail)), LONG_B1))
  {
    LongBProtocol(tail);
    LongCalling(BProtocol(tail));
  }

  lemma LongValid(items: Items)
    requires items == Layout(CONNECT, REQ).value
    ensures Valid(Collect(items, LONG_B1))
  {
    TableSound(CONNECT, REQ);
    CollectValid(items, LONG_B1);
  }

  /** All its structs are well-formed, but its B protocol is too long, and it is not read back faithfully. */
  lemma LongConnectReq(h: Header)
    requires h.command == CONNECT && h.subcommand == REQ
    ensures h.Known()
    ensures var v := Collect(h.Items(), LONG_B1);
      var m := Message(h, v);
      Valid(v) && !AllShort(v) && !Faithful(Read(m), |m|, [], h, h.Items(), LONG_B1)
  {
    LongValid(h.Items());
    LongCall(Compatibility());
    MessageRoundTrip(h, LONG_B1, []);
    var m := Message(h, Collect(h.Items(), LONG_B1));
    assert m + [] == m;
  }

  // ----- reading, then writing -----

  /** Encoding the fields that were read, under the header that was read, gives the bytes m again. */
  predicate Reproduced(m: seq<byte>, h: Header, items: Items, f: Fields, rest: seq<byte>) {
    m == Message(h, Collect(items, f)) + rest
  }

  /** The composed structs of m are in the exact short form and its length word is right. */
  predicate CanonicalMessage(m: seq<byte>, items: Items, len: word, rest: seq<byte>) {
    && HEADER <= |m| && Decode(items, m[HEADER..]).Parsed? && Canonical(items, m[HEADER..])
    && len == (|m| - |rest|) % WORDS
  }

  /** Writing what was read reproduces the message byte for byte, structs in the long form included, exactly
      when it is canonical. */
  lemma Reencode(m: seq<byte>)
    requires Read(m).Reading?
    ensures var r := Read(m);
      var items := r.header.Items();
      Reproduced(m, r.header, items, r.fields, r.rest) <==> CanonicalMessage(m, items, r.len, r.rest)
  {
    ReadParts(m);
    Rewritten(m, Read(m).header, Read(m).header.Items(), Read(m).fields, Read(m).len, Read(m).rest);
  }

  lemma ReadParts(m: seq<byte>)
    requires Read(m).Reading?
    ensures HEADER <= |m| && Read(m).header == HeaderOf(m) && Read(m).len == U16(m, 0)
    ensures var items := Read(m).header.Items();
      WellFormed(items) && Decode(items, m[HEADER..]) == Parsed(Collect(items, Read(m).fields), Read(m).rest)
  {
    TableSound(HeaderOf(m).command, HeaderOf(m).subcommand);
    CollectStore(Decode(HeaderOf(m).Items(), m[HEADER..]).vals, CLEARED);
  }

  lemma Rewritten(m: seq<byte>, h: Header, items: Items, f: Fields, len: word, rest: seq<byte>)
    requires HEADER <= |m| && WellFormed(items) && h == HeaderOf(m) && len == U16(m, 0)
    requires Decode(items, m[HEADER..]) == Parsed(Collect(items, f), rest)
    ensures Reproduced(m, h, items, f, rest) <==> CanonicalMessage(m, items, len, rest)
  {
    Reproduces(items, m[HEADER..]);
    HeadAndBody(m, Written(Collect(items, f)), rest, Canonical(items, m[HEADER..]));
  }

  lemma HeadAndBody(m: seq<byte>, w: seq<byte>, rest: seq<byte>, canonical: bool)
    requires HEADER + |rest| <= |m| && (m[HEADER..] == w + rest <==> canonical)
    ensures m == (HeaderBytes(HEADER + |w|, HeaderOf(m)) + w) + rest
      <==> canonical && U16(m, 0) == (|m| - |rest|) % WORDS
  {
    FrontHeader(m, HEADER + |w|);
    SameBytes(m, HeaderBytes(HEADER + |w|, HeaderOf(m)), w, rest);
    if canonical { assert |m| == HEADER + |m[HEADER..]|; }
  }

  /** A message is its header and what follows. */
  lemma SameBytes(m: seq<byte>, head: seq<byte>, w: seq<byte>, rest: seq<byte>)
    requires HEADER <= |m| && |head| == HEADER
    ensures m == (head + w) + rest <==> m[..HEADER] == head && m[HEADER..] == w + rest
  {
    Assoc(head, w, rest);
    assert m == m[..HEADER] + m[HEADER..];
    var t := head + (w + rest);
    assert t[..HEADER] == head && t[HEADER..] == w + rest;
  }

  // ----- answering an indication -----

  lemma AnswerKnown(h: Header)
    requires h.Known() && h.subcommand == IND
    ensures h.Answer().Known() && h.Answer().subcommand == RESP
  {
  }

  predicate StartsWithAddress(items: Items) {
    items.Item? && items.code == 0x03 && items.kind == DWordKind
  }

  lemma AddressFirst(h: Header)
    requires h.Known()
    ensures StartsWithAddress(h.Items())
  {
    LayoutKnown(h.command, h.subcommand);
    if h.subcommand == REQ { ReqAddress(h.command); }
    else if h.subcommand == CONF { ConfAddress(h.command); }
    else if h.subcommand == IND { IndAddress(h.command); }
    else { RespAddress(h.command); }
  }

  lemma ReqAddress(c: byte)
    ensures Layout(c, REQ).Some? ==> StartsWithAddress(Layout(c, REQ).value)
  {
  }

  lemma ConfAddress(c: byte)
    ensures Layout(c, CONF).Some? ==> StartsWithAddress(Layout(c, CONF).value)
  {
  }

  lemma IndAddress(c: byte)
    ensures Layout(c, IND).Some? ==> StartsWithAddress(Layout(c, IND).value)
  {
  }

  lemma RespAddress(c: byte)
    ensures Layout(c, RESP).Some? ==> StartsWithAddress(Layout(c, RESP).value)
  {
  }

  lemma AddressRead(m: seq<byte>)
    requires Read(m).Reading?
    ensures HEADER + 4 <= |m| && Read(m).fields.DWord(0x03) == U32(m, 8)
  {
    var h := HeaderOf(m);
    var items, s := h.Items(), m[HEADER..];
    AddressFirst(h);
    TableSound(h.command, h.subcommand);
    var v := Decode(items, s).vals;
    assert v.val == D(U32(s, 0)) && U32(s, 0) == U32(m, 8);
    CollectStore(v, CLEARED);
    assert Collect(items, Read(m).fields).val == D(Read(m).fields.DWord(0x03));
  }

  lemma AddressWritten(h: Header, f: Fields)
    requires h.Known()
    ensures var m := Message(h, Collect(h.Items(), f));
      HEADER + 4 <= |m| && U32(m, 8) == f.DWord(0x03)
  {
    AddressFirst(h);
    var v := Collect(h.Items(), f);
    var w := Written(v);
    assert w == Bytes32(f.DWord(0x03)) + Written(v.tail);
    DWordFront(f.DWord(0x03), Written(v.tail));
    HeaderFront(HEADER + |w|, h, w);
    var m := Message(h, v);
    assert m[HEADER..] == w && U32(m, 8) == U32(w, 0);
  }

  /** Decoding an indication, turning it into an answer and encoding that addresses the same
      application, message number and connection. */
  lemma AnswerEchoes(m: seq<byte>)
    requires Read(m).Reading? && Read(m).header.subcommand == IND
    ensures var r := Read(m);
      && r.header.Answer().Known()
      && var reply := Message(r.header.Answer(), Collect(r.header.Answer().Items(), r.fields));
      && 12 <= |reply| && 12 <= |m|
      && HeaderOf(reply) == HeaderOf(m).(subcommand := RESP) && U32(reply, 8) == U32(m, 8)
  {
    var r := Read(m);
    AnswerKnown(r.header);
    AddressRead(m);
    AddressWritten(r.header.Answer(), r.fields);
    var w := Written(Collect(r.header.Answer().Items(), r.fields));
    HeaderFront(HEADER + |w|, r.header.Answer(), w);
  }

  // ----- the data messages -----

  /** The fields that capi_fill_DATA_B3_REQ and capi_fill_DATA_B3_RESP assign. */
  function FillDataB3Req(adr: dword, data: dword, dataLength: word, dataHandle: word, flags: word): Fields {
    CLEARED.Set(0x03, D(adr)).Set(0x18, D(data)).Set(0x1a, W(dataLength)).Set(0x19, W(dataHandle)).Set(0x20, W(flags))
  }

  function FillDataB3Resp(adr: dword, dataHandle: word): Fields {
    CLEARED.Set(0x03, D(adr)).Set(0x19, W(dataHandle))
  }

  function DataB3ReqMessage(applId: word, number: word, f: Fields): seq<byte> {
    Message(Header(applId, DATA_B3, REQ, number), Collect(DataB3(), f))
  }

  function DataB3RespMessage(applId: word, number: word, f: Fields): seq<byte> {
    Message(Header(applId, DATA_B3, RESP, number), Collect(DataB3Resp(), f))
  }

  /** The data request is 22 bytes long and lays out its fields back to back. */
  lemma DataB3ReqBytes(applId: word, number: word, adr: dword, data: dword, len: word, handle: word, flags: word)
    ensures DataB3ReqMessage(applId, number, FillDataB3Req(adr, data, len, handle, flags))
      == HeaderBytes(22, Header(applId, DATA_B3, REQ, number))
      + (Bytes32(adr) + (Bytes32(data) + (Bytes16(len) + (Bytes16(handle) + Bytes16(flags)))))
  {
    var f := FillDataB3Req(adr, data, len, handle, flags);
    var flagsItem := Programs.W(0x20, Nil);
    assert Written(Collect(flagsItem, f)) == Bytes16(flags) + [];
    assert Written(Collect(Programs.W(0x19, flagsItem), f)) == Bytes16(handle) + Bytes16(flags);
    assert Written(Collect(Programs.W(0x1a, Programs.W(0x19, flagsItem)), f))
      == Bytes16(len) + (Bytes16(handle) + Bytes16(flags));
    var tail := Programs.D(0x18, Programs.W(0x1a, Programs.W(0x19, flagsItem)));
    assert Written(Collect(tail, f)) == Bytes32(data) + (Bytes16(len) + (Bytes16(handle) + Bytes16(flags)));
    assert Written(Collect(Programs.D(0x03, tail), f)) == Bytes32(adr) + Written(Collect(tail, f));
  }

  /** The answer to a data indication is 14 bytes long. */
  lemma DataB3RespBytes(applId: word, number: word, f: Fields)
    ensures DataB3RespMessage(applId, number, f)
      == HeaderBytes(14, Header(applId, DATA_B3, RESP, number)) + (Bytes32(f.DWord(0x03)) + Bytes16(f.Word(0x19)))
  {
    assert Written(Collect(Programs.W(0x19, Nil), f)) == Bytes16(f.Word(0x19)) + [];
    assert Written(Collect(Programs.D(0x03, Programs.W(0x19, Nil)), f))
      == Bytes32(f.DWord(0x03)) + Bytes16(f.Word(0x19));
  }

  lemma HandleCollected(f: Fields)
    ensures exists a, b, c, rest ::
      Collect(DataB3(), f)
      == Scalar(0x03, a, Scalar(0x18, b, Scalar(0x1a, c, Scalar(0x19, f.Get(WordKind, 0x19), rest))))
  {
    var t := Programs.W(0x19, Programs.W(0x20, Nil));
    var rest := Collect(t, f);
    assert rest == Scalar(0x19, f.Get(WordKind, 0x19), rest.tail);
    var u := Programs.D(0x18, Programs.W(0x1a, t));
    assert Collect(u, f) == Scalar(0x18, f.Get(DWordKind, 0x18), Scalar(0x1a, f.Get(WordKind, 0x1a), rest));
    assert Collect(Programs.D(0x03, u), f) == Scalar(0x03, f.Get(DWordKind, 0x03), Collect(u, f));
  }

  lemma DataB3IndHandle(m: seq<byte>)
    requires Read(m).Reading? && Read(m).header.command == DATA_B3 && Read(m).header.subcommand == IND
    ensures 22 <= |m| && Read(m).fields.Word(0x19) == U16(m, 18) && Read(m).fields.DWord(0x03) == U32(m, 8)
  {
    var s := m[HEADER..];
    var v := Decode(DataB3(), s).vals;
    var s1 := s[4..];
    assert Decode(Programs.D(0x18, Programs.W(0x1a, Programs.W(0x19, Programs.W(0x20, Nil)))), s1).Parsed?;
    var s2 := s1[4..];
    assert Decode(Programs.W(0x1a, Programs.W(0x19, Programs.W(0x20, Nil))), s2).Parsed?;
    var s3 := s2[2..];
    assert Decode(Programs.W(0x19, Programs.W(0x20, Nil)), s3).Parsed?;
    var s4 := s3[2..];
    assert Decode(Programs.W(0x20, Nil), s4).Parsed?;
    assert s3 == m[18..] && v.tail.tail.tail.val == Value.W(U16(s3, 0));
    TableSound(DATA_B3, IND);
    CollectStore(v, CLEARED);
    assert Collect(DataB3(), Read(m).fields) == v;
    HandleCollected(Read(m).fields);
    AddressRead(m);
  }

  /** Reading a data indication, answering it and writing the answer gives 14 bytes with the application,
      number, NCCI and data handle of the indication. */
  lemma AnswerDataB3(m: seq<byte>)
    requires Read(m).Reading? && Read(m).header.command == DATA_B3 && Read(m).header.subcommand == IND
    ensures Read(m).header.Answer().Known() && Read(m).header.Answer().Items() == DataB3Resp()
    ensures 22 <= |m|
      && Message(Read(m).header.Answer(), Collect(DataB3Resp(), Read(m).fields))
      == DataB3RespMessage(U16(m, 2), U16(m, 6), FillDataB3Resp(U32(m, 8), U16(m, 18)))
  {
    var r := Read(m);
    DataB3IndHandle(m);
    DataB3RespBytes(U16(m, 2), U16(m, 6), r.fields);
    DataB3RespBytes(U16(m, 2), U16(m, 6), FillDataB3Resp(U32(m, 8), U16(m, 18)));
  }
}
