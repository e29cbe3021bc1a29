/** The parameter programs: the cdef and cpars tables of capiutil.c, the index into cpars, and the scan
    that skips a composed struct. */
module Programs {
  import opened Wire
  import opened Grammar

  // ----- skipping a composed struct -----

  datatype Option<T> = None | Some(value: T)

  /** Scan ops entry by entry, opening a layer at every composed struct and closing one at every end
      marker, up to the marker that closes the last layer. */
  function Scan(ops: seq<Op>, layer: nat): Option<seq<Op>>
    requires 0 < layer
  {
    if ops == [] then None
    else match ops[0]
      case Item(_, _) => Scan(ops[1..], layer)
      case Meta(_) => Scan(ops[1..], layer + 1)
      case End => if layer == 1 then Some(ops) else Scan(ops[1..], layer - 1)
  }

  /** The scan passes over balanced parameters without changing layer. */
  lemma {:induction false} ScanBalanced(items: Items, layer: nat, rest: seq<Op>)
    requires 0 < layer
    ensures Scan(Flatten(items) + rest, layer) == Scan(rest, layer)
  {
    match items
    case Nil =>
      assert Flatten(items) + rest == rest;
    case Item(k, c, tail) =>
      var ops := Flatten(items) + rest;
      assert ops[1..] == Flatten(tail) + rest;
      ScanBalanced(tail, layer, rest);
    case Group(c, members, tail) =>
      var ops := Flatten(items) + rest;
      var after := [Op.End] + (Flatten(tail) + rest);
      assert ops[1..] == Flatten(members) + after;
      ScanBalanced(members, layer + 1, after);
      assert after[1..] == Flatten(tail) + rest;
      ScanBalanced(tail, layer, rest);
  }

  lemma {:induction false} ScanShortens(ops: seq<Op>, layer: nat)
    requires 0 < layer
    ensures Scan(ops, layer).Some? ==> |Scan(ops, layer).value| <= |ops|
  {
    if ops != [] {
      match ops[0]
      case Item(_, _) => ScanShortens(ops[1..], layer);
      case Meta(_) => ScanShortens(ops[1..], layer + 1);
      case End => if layer > 1 { ScanShortens(ops[1..], layer - 1); }
    }
  }

  /** jumpcstruct starts scanning behind the first member.  It stops on the end marker of the struct it
      was called for exactly when that member exists and is not itself composed. */
  lemma JumpLands(members: Items, rest: seq<Op>)
    ensures var ops := Flatten(members) + ([Op.End] + rest);
      Scan(ops[1..], 1) == Some([Op.End] + rest) <==> members.Item?
  {
    var end := [Op.End] + rest;
    var ops := Flatten(members) + end;
    match members
    case Nil =>
      assert ops[1..] == rest;
      ScanShortens(rest, 1);
    case Item(_, _, tail) =>
      assert ops[1..] == Flatten(tail) + end;
      ScanBalanced(tail, 1, end);
    case Group(_, inner, tail) =>
      var after := [Op.End] + (Flatten(tail) + end);
      assert ops[1..] == Flatten(inner) + after;
      ScanBalanced(inner, 1, after);
      assert |after| > |end|;
  }

  // ----- the tables -----

  /** cdef: type and field of each parameter code. */
  function Cdef(c: byte): Op
    requires c <= 0x2f
  {
    if c <= 0x02 then End
    else if c in {0x04, 0x0d} then Meta(c)
    else if c in {0x03, 0x12, 0x13, 0x15, 0x18, 0x21, 0x25, 0x2a} then Op.Item(DWordKind, c)
    else if c in {0x06, 0x08, 0x0a, 0x14, 0x19, 0x1a, 0x1f, 0x20, 0x23, 0x26, 0x2c, 0x2d, 0x2e} then
      Op.Item(WordKind, c)
    else Op.Item(StructKind, c)
  }

  type code = c: int | 0 <= c <= 0x2f

  /** command_2_index, bit operations written as arithmetic. */
  function CommandIndex(c: byte, sc: byte): (i: nat) { sc % 4 * (0x9 + 0x9) + CommandBase(c) }

  function CommandBase(c: byte): int {
    if c >= 0x80 then 0x9 + c % 0x10
    else if c <= 0x0f then c
    else if c == 0x41 then 0x9 + 0x1
    else if c == 0xff then 0x00
    else c
  }

  /** The last test is for the manufacturer command 0xff, which the first one has caught already: only command
      0 has the base 0. */
  lemma LastTestDead(c: byte)
    ensures CommandBase(c) == 0 <==> c == 0
    ensures CommandBase(MANUFACTURER) == 0x9 + 0xf
  {
  }

  /** The program as TYP and OFF see it. */
  function Ops(par: seq<code>): (ops: seq<Op>)
    ensures |ops| == |par|
  {
    if par == [] then [] else [Cdef(par[0])] + Ops(par[1..])
  }

  /** The codes of a program, a composed struct closed by the end marker 0x01. */
  function Coded(items: Items): seq<byte> {
    match items
    case Nil => []
    case Item(_, c, tail) => [c] + Coded(tail)
    case Group(c, members, tail) => [c] + (Coded(members) + ([0x01] + Coded(tail)))
  }

  /** Every code has the type that cdef gives it. */
  predicate Typed(items: Items) {
    match items
    case Nil => true
    case Item(k, c, tail) => c <= 0x2f && Cdef(c) == Op.Item(k, c) && Typed(tail)
    case Group(c, members, tail) => c <= 0x2f && Cdef(c) == Meta(c) && Typed(members) && Typed(tail)
  }

  lemma {:induction false} CodedCodes(items: Items)
    requires Typed(items)
    ensures forall i :: 0 <= i < |Coded(items)| ==> Coded(items)[i] <= 0x2f
  {
    match items
    case Nil =>
    case Item(_, _, tail) => CodedCodes(tail);
    case Group(_, members, tail) => CodedCodes(members); CodedCodes(tail);
  }

  function AsCodes(b: seq<byte>): (par: seq<code>)
    requires forall i :: 0 <= i < |b| ==> b[i] <= 0x2f
    ensures par == b
  {
    b
  }

  /** The program of well-typed parameters, followed by the end marker and anything else, is seen as
      these parameters and the end marker. */
  lemma {:induction false} OpsCoded(items: Items, par: seq<code>, rest: seq<code>)
    requires Typed(items) && par == Coded(items) + rest
    ensures Ops(par) == Flatten(items) + Ops(rest)
    decreases items, 1
  {
    match items
    case Nil =>
      assert par == rest && Flatten(items) + Ops(rest) == Ops(rest);
    case Item(_, c, tail) =>
      assert par[1..] == Coded(tail) + rest;
      OpsCoded(tail, par[1..], rest);
    case Group(c, members, tail) =>
      OpsCodedGroup(items, par, rest);
  }

  lemma {:induction false} OpsCodedGroup(items: Items, par: seq<code>, rest: seq<code>)
    requires items.Group? && Typed(items) && par == Coded(items) + rest
    ensures Ops(par) == Flatten(items) + Ops(rest)
    decreases items, 0
  {
    var m, t := Coded(items.members), Coded(items.tail);
    assert par == [items.code] + (m + ([0x01] + (t + rest)));
    var inner := par[1 + |m|..];
    assert inner == [0x01] + (t + rest);
    assert par[1..] == m + inner;
    OpsCoded(items.members, par[1..], inner);
    assert inner[1..] == t + rest;
    OpsCoded(items.tail, inner[1..], rest);
    FlattenGroup(items, Ops(rest));
  }

  lemma FlattenGroup(items: Items, rest: seq<Op>)
    requires items.Group?
    ensures Flatten(items) + rest
         == [Meta(items.code)] + (Flatten(items.members) + ([Op.End] + (Flatten(items.tail) + rest)))
  {
  }

  // ----- the messages of CAPI 2.0 -----

  const ALERT: byte := 0x01
  const CONNECT: byte := 0x02
  const CONNECT_ACTIVE: byte := 0x03
  const DISCONNECT: byte := 0x04
  const LISTEN: byte := 0x05
  const INFO: byte := 0x08
  const SELECT_B_PROTOCOL: byte := 0x41
  const FACILITY: byte := 0x80
  const CONNECT_B3: byte := 0x82
  const CONNECT_B3_ACTIVE: byte := 0x83
  const DISCONNECT_B3: byte := 0x84
  const DATA_B3: byte := 0x86
  const RESET_B3: byte := 0x87
  const CONNECT_B3_T90_ACTIVE: byte := 0x88
  const MANUFACTURER: byte := 0xff

  const REQ: byte := 0x80
  const CONF: byte := 0x81
  const IND: byte := 0x82
  const RESP: byte := 0x83

  function W(c: byte, tail: Items): Items { Items.Item(WordKind, c, tail) }

  function D(c: byte, tail: Items): Items { Items.Item(DWordKind, c, tail) }

  function S(c: byte, tail: Items): Items { Items.Item(StructKind, c, tail) }

  function AdditionalInfo(tail: Items): Items {
    Group(0x04, S(0x0c, S(0x27, S(0x2f, S(0x1c, Nil)))), tail)
  }

  function BProtocol(tail: Items): Items {
    Group(0x0d, W(0x06, W(0x08, W(0x0a, S(0x05, S(0x07, S(0x09, Nil)))))), tail)
  }

  /** A parameter list behind the Controller/PLCI/NCCI double word that every message starts with. */
  function Addressed(tail: Items): Items { D(0x03, tail) }

  /** The CIP value and the four numbers that begin a call. */
  function Calling(tail: Items): Items {
    Addressed(W(0x14, S(0x0e, S(0x10, S(0x0f, S(0x11, tail))))))
  }

  function Compatibility(): Items { S(0x0b, S(0x28, S(0x22, AdditionalInfo(Nil)))) }

  function ConnectReq(): Items { Calling(BProtocol(Compatibility())) }

  function ConnectInd(): Items { Calling(Compatibility()) }

  function ConnectResp(): Items {
    Addressed(W(0x2e, BProtocol(S(0x16, S(0x17, S(0x28, AdditionalInfo(Nil)))))))
  }

  function Clearing(): Items { Addressed(AdditionalInfo(Nil)) }

  function ListenReq(): Items { Addressed(D(0x25, D(0x12, D(0x13, S(0x10, S(0x11, Nil)))))) }

  function DataB3(): Items { Addressed(D(0x18, W(0x1a, W(0x19, W(0x20, Nil))))) }

  function DataB3Resp(): Items { Addressed(W(0x19, Nil)) }

  function Ncpi(): Items { Addressed(S(0x2b, Nil)) }

  function InfoConf(): Items { Addressed(W(0x23, Nil)) }

  function Manufacturer(): Items { Addressed(D(0x2a, D(0x15, D(0x21, S(0x29, Nil))))) }

  /** The parameters of each message CAPI 2.0 defines (Part I, chapter 5), None for all other codes. */
  function Layout(c: byte, sc: byte): (r: Option<Items>) {
    if c == MANUFACTURER && REQ <= sc <= RESP then Some(Manufacturer())
    else if sc == REQ then
      if c == ALERT || c == DISCONNECT then Some(Clearing())
      else if c == CONNECT then Some(ConnectReq())
      else if c == LISTEN then Some(ListenReq())
      else if c == INFO then Some(Addressed(S(0x0e, AdditionalInfo(Nil))))
      else if c == FACILITY then Some(Addressed(W(0x1f, S(0x1e, Nil))))
      else if c == SELECT_B_PROTOCOL then Some(Addressed(BProtocol(Nil)))
      else if c == CONNECT_B3 || c == DISCONNECT_B3 || c == RESET_B3 then Some(Ncpi())
      else if c == DATA_B3 then Some(DataB3())
      else None
    else if sc == CONF then
      if c == FACILITY then Some(Addressed(W(0x23, W(0x1f, S(0x1b, Nil)))))
      else if c == DATA_B3 then Some(Addressed(W(0x19, W(0x23, Nil))))
      else if c in {ALERT, CONNECT, DISCONNECT, LISTEN, INFO, SELECT_B_PROTOCOL, CONNECT_B3, DISCONNECT_B3, RESET_B3}
      then Some(InfoConf())
      else None
    else if sc == IND then
      if c == CONNECT then Some(ConnectInd())
      else if c == CONNECT_ACTIVE then Some(Addressed(S(0x16, S(0x17, S(0x28, Nil)))))
      else if c == DISCONNECT then Some(Addressed(W(0x2c, Nil)))
      else if c == INFO then Some(Addressed(W(0x26, S(0x24, Nil))))
      else if c == FACILITY then Some(Addressed(W(0x1f, S(0x1d, Nil))))
      else if c == DISCONNECT_B3 then Some(Addressed(W(0x2d, S(0x2b, Nil))))
      else if c == DATA_B3 then Some(DataB3())
      else if c in {CONNECT_B3, CONNECT_B3_ACTIVE, RESET_B3, CONNECT_B3_T90_ACTIVE} then Some(Ncpi())
      else None
    else if sc == RESP then
      if c == CONNECT then Some(ConnectResp())
      else if c == FACILITY then Some(Addressed(W(0x1f, Nil)))
      else if c == CONNECT_B3 then Some(Addressed(W(0x2e, S(0x2b, Nil))))
      else if c == DATA_B3 then Some(DataB3Resp())
      else if c in {CONNECT_ACTIVE, DISCONNECT, INFO, CONNECT_B3_ACTIVE, DISCONNECT_B3, RESET_B3,
                    CONNECT_B3_T90_ACTIVE}
      then Some(Addressed(Nil))
      else None
    else None
  }

  // ----- the table is sound -----

  lemma NewCode(k: Kind, c: byte, tail: Items, codes: set<byte>)
    requires Distinct(tail) && Codes(tail) == codes && c !in codes
    ensures Distinct(Items.Item(k, c, tail)) && Codes(Items.Item(k, c, tail)) == {c} + codes
  {
  }

  lemma CallingDistinct(tail: Items)
    requires Distinct(tail) && Codes(tail) !! {0x03, 0x14, 0x0e, 0x10, 0x0f, 0x11}
    ensures Distinct(Calling(tail))
  {
    var c := Codes(tail);
    NewCode(StructKind, 0x11, tail, c);
    NewCode(StructKind, 0x0f, S(0x11, tail), {0x11} + c);
    NewCode(StructKind, 0x10, S(0x0f, S(0x11, tail)), {0x0f} + ({0x11} + c));
    var t, d := S(0x10, S(0x0f, S(0x11, tail))), {0x10} + ({0x0f} + ({0x11} + c));
    NewCode(StructKind, 0x0e, t, d);
    NewCode(WordKind, 0x14, S(0x0e, t), {0x0e} + d);
    NewCode(DWordKind, 0x03, W(0x14, S(0x0e, t)), {0x14} + ({0x0e} + d));
  }

  lemma BProtocolDistinct(tail: Items, codes: set<byte>)
    requires Distinct(tail) && Codes(tail) == codes && codes !! {0x0d, 0x06, 0x08, 0x0a, 0x05, 0x07, 0x09}
    ensures Distinct(BProtocol(tail))
    ensures Codes(BProtocol(tail)) == codes + {0x0d, 0x06, 0x08, 0x0a, 0x05, 0x07, 0x09}
  {
  }

  lemma CompatibilityDistinct()
    ensures Distinct(Compatibility())
    ensures Codes(Compatibility()) == {0x0b, 0x28, 0x22, 0x04, 0x0c, 0x27, 0x2f, 0x1c}
  {
  }

  predicate Sound(items: Items) {
    Typed(items) && WellFormed(items) && Distinct(items)
  }

  lemma ConnectReqSound(t: Items)
    requires t == Compatibility()
    ensures Sound(Calling(BProtocol(t)))
  {
    ConnectReqDistinct(t);
    CompatibilityTyped();
    BProtocolTyped(t);
    CallingTyped(BProtocol(t));
  }

  lemma ConnectReqDistinct(t: Items)
    requires t == Compatibility()
    ensures Distinct(Calling(BProtocol(t)))
  {
    CallCodes(t);
    CallingDistinct(BProtocol(t));
  }

  /** The parameters behind those of the call itself. */
  lemma CallCodes(t: Items)
    requires t == Compatibility()
    ensures Distinct(BProtocol(t)) && Codes(BProtocol(t)) !! {0x03, 0x14, 0x0e, 0x10, 0x0f, 0x11}
  {
    CompatibilityDistinct();
    BProtocolDistinct(t, {0x0b, 0x28, 0x22, 0x04, 0x0c, 0x27, 0x2f, 0x1c});
    Apart(Codes(BProtocol(t)));
  }

  lemma Apart(codes: set<byte>)
    requires codes == {0x0b, 0x28, 0x22, 0x04, 0x0c, 0x27, 0x2f, 0x1c} + {0x0d, 0x06, 0x08, 0x0a, 0x05, 0x07, 0x09}
    ensures codes !! {0x03, 0x14, 0x0e, 0x10, 0x0f, 0x11}
  {
  }

  lemma ConnectIndSound(t: Items)
    requires t == Compatibility()
    ensures Sound(Calling(t))
  {
    CompatibilityDistinct();
    CallingDistinct(t);
    CompatibilityTyped();
    CallingTyped(t);
  }

  function Connected(): Items { S(0x16, S(0x17, S(0x28, AdditionalInfo(Nil)))) }

  lemma ConnectedSound()
    ensures Sound(Connected()) && Codes(Connected()) == {0x16, 0x17, 0x28, 0x04, 0x0c, 0x27, 0x2f, 0x1c}
  {
  }

  lemma ConnectRespSound(t: Items)
    requires t == Connected()
    ensures Sound(Addressed(W(0x2e, BProtocol(t))))
  {
    ConnectRespDistinct(t);
    ConnectedSound();
    BProtocolTyped(t);
  }

  lemma ConnectRespDistinct(t: Items)
    requires t == Connected()
    ensures Distinct(Addressed(W(0x2e, BProtocol(t))))
  {
    ResponseCodes(t);
    var codes := Codes(BProtocol(t));
    NewCode(WordKind, 0x2e, BProtocol(t), codes);
    NewCode(DWordKind, 0x03, W(0x2e, BProtocol(t)), {0x2e} + codes);
  }

  lemma ResponseCodes(t: Items)
    requires t == Connected()
    ensures Distinct(BProtocol(t)) && 0x2e !in Codes(BProtocol(t)) && 0x03 !in Codes(BProtocol(t))
  {
    ConnectedSound();
    BProtocolDistinct(t, {0x16, 0x17, 0x28, 0x04, 0x0c, 0x27, 0x2f, 0x1c});
  }

  lemma CompatibilityTyped()
    ensures Typed(Compatibility()) && WellFormed(Compatibility())
  {
  }

  lemma CallingTyped(tail: Items)
    requires Typed(tail) && WellFormed(tail)
    ensures Typed(Calling(tail)) && WellFormed(Calling(tail))
  {
    assert Typed(S(0x0f, S(0x11, tail))) && WellFormed(S(0x0f, S(0x11, tail)));
    var t := S(0x0e, S(0x10, S(0x0f, S(0x11, tail))));
    assert Typed(t) && WellFormed(t);
  }

  lemma BProtocolTyped(tail: Items)
    requires Typed(tail) && WellFormed(tail)
    ensures Typed(BProtocol(tail)) && WellFormed(BProtocol(tail))
  {
  }

  lemma SelectSound(t: Items)
    requires t == Nil
    ensures Sound(Addressed(BProtocol(t)))
  {
    BProtocolTyped(t);
    BProtocolDistinct(t, {});
  }

  lemma ReqComposedSound(c: byte)
    requires c in {ALERT, CONNECT, DISCONNECT, INFO, SELECT_B_PROTOCOL}
    ensures Sound(Layout(c, REQ).value)
  {
    if c == CONNECT { ConnectReqSound(Compatibility()); }
    else if c == SELECT_B_PROTOCOL { SelectSound(Nil); }
    else if c == INFO { InfoReqSound(); }
    else { ClearingSound(); }
  }

  lemma ClearingSound()
    ensures Sound(Clearing())
  {
  }

  lemma InfoReqSound()
    ensures Sound(Addressed(S(0x0e, AdditionalInfo(Nil))))
  {
  }

  lemma ReqPlainSound(c: byte)
    requires Layout(c, REQ).Some? && c !in {ALERT, CONNECT, DISCONNECT, INFO, SELECT_B_PROTOCOL}
    ensures Sound(Layout(c, REQ).value)
  {
    if c == LISTEN { ListenSound(); }
    else if c == DATA_B3 { DataB3Sound(); }
    else if c == MANUFACTURER { ManufacturerSound(); }
    else { ShortSound(); }
  }

  lemma ListenSound()
    ensures Sound(ListenReq())
  {
  }

  lemma ShortSound()
    ensures Sound(Ncpi()) && Sound(InfoConf()) && Sound(Addressed(W(0x1f, S(0x1e, Nil)))) && Sound(Addressed(Nil))
  {
  }

  lemma IndSound(c: byte)
    requires Layout(c, IND).Some?
    ensures Sound(Layout(c, IND).value)
  {
    if c == CONNECT { ConnectIndSound(Compatibility()); }
    else { IndPlainSound(c); }
  }

  lemma IndPlainSound(c: byte)
    requires Layout(c, IND).Some? && c != CONNECT
    ensures Sound(Layout(c, IND).value)
  {
    if c == CONNECT_ACTIVE { ActiveIndSound(); }
    else if c == DATA_B3 { DataB3Sound(); }
    else if c == MANUFACTURER { ManufacturerSound(); }
    else if c == CONNECT_B3 || c == CONNECT_B3_ACTIVE || c == RESET_B3 || c == CONNECT_B3_T90_ACTIVE { ShortSound(); }
    else { IndShortSound(c); }
  }

  lemma ActiveIndSound()
    ensures Sound(Addressed(S(0x16, S(0x17, S(0x28, Nil)))))
  {
  }

  lemma DataB3Sound()
    ensures Sound(DataB3())
  {
  }

  lemma ManufacturerSound()
    ensures Sound(Manufacturer())
  {
  }

  lemma IndShortSound(c: byte)
    requires c == DISCONNECT || c == INFO || c == FACILITY || c == DISCONNECT_B3
    ensures Sound(Layout(c, IND).value)
  {
  }

  lemma ConfSound(c: byte)
    requires Layout(c, CONF).Some?
    ensures Sound(Layout(c, CONF).value)
  {
    if c == MANUFACTURER { ManufacturerSound(); }
    else if c != FACILITY && c != DATA_B3 { ShortSound(); }
  }

  lemma RespSound(c: byte)
    requires Layout(c, RESP).Some?
    ensures Sound(Layout(c, RESP).value)
  {
    if c == CONNECT { ConnectRespSound(Connected()); }
    else if c == MANUFACTURER { ManufacturerSound(); }
    else { ShortSound(); }
  }

  /** The table agrees with cdef for every message of CAPI 2.0: each parameter has the type cdef gives its
      code, every composed struct can be skipped, and no parameter occurs twice. */
  lemma TableSound(c: byte, sc: byte)
    requires Layout(c, sc).Some?
    ensures Sound(Layout(c, sc).value)
  {
    if sc == REQ {
      if c in {ALERT, CONNECT, DISCONNECT, INFO, SELECT_B_PROTOCOL} { ReqComposedSound(c); } else { ReqPlainSound(c); }
    }
    else if sc == CONF { ConfSound(c); }
    else if sc == IND { IndSound(c); }
    else { RespSound(c); }
  }

  const COMMANDS := {ALERT, CONNECT, CONNECT_ACTIVE, DISCONNECT, LISTEN, INFO, SELECT_B_PROTOCOL, FACILITY,
    CONNECT_B3, CONNECT_B3_ACTIVE, DISCONNECT_B3, DATA_B3, RESET_B3, CONNECT_B3_T90_ACTIVE, MANUFACTURER}

  lemma LayoutKnown(c: byte, sc: byte)
    requires Layout(c, sc).Some?
    ensures c in COMMANDS && REQ <= sc <= RESP
  {
  }

  /** The command whose requests use an entry. */
  function CommandOf(base: int): int {
    if base < 0x09 then base
    else if base == 0x0a then 0x41
    else if base == 0x18 then 0xff
    else 0x80 + base - 0x9
  }

  lemma BaseBack(c: byte)
    requires c in COMMANDS
    ensures CommandOf(CommandBase(c)) == c
    ensures (0 < CommandBase(c) < 18 && CommandBase(c) != 6) || (c == MANUFACTURER && CommandBase(c) == 24)
  {
  }

  /** The requests use entries 0x01 to 0x11 and 0x18, one each. */
  lemma BaseIndex(c: byte, d: byte)
    requires c in COMMANDS && d in COMMANDS
    ensures (0 < CommandIndex(c, REQ) < 18 && CommandIndex(c, REQ) != 6) || c == MANUFACTURER
    ensures CommandIndex(MANUFACTURER, REQ) == 24
    ensures CommandIndex(c, REQ) == CommandIndex(d, REQ) ==> c == d
  {
    BaseBack(c);
    BaseBack(d);
  }

  lemma IndexInjectiveOn(c: byte, sc: byte, d: byte, sd: byte)
    requires c in COMMANDS && d in COMMANDS && REQ <= sc <= RESP && REQ <= sd <= RESP
    requires CommandIndex(c, sc) == CommandIndex(d, sd)
    ensures c == d && sc == sd && CommandIndex(c, sc) <= 0x4e
  {
    BaseIndex(c, d);
    BaseIndex(d, c);
    Split18(sc - REQ, CommandIndex(c, REQ), sd - REQ, CommandIndex(d, REQ));
  }

  lemma Split18(i: nat, a: nat, j: nat, b: nat)
    requires i < 4 && j < 4 && 18 * i + a == 18 * j + b
    requires (0 < a < 18 && a != 6) || a == 24
    requires (0 < b < 18 && b != 6) || b == 24
    ensures i == j && a == b && 18 * i + a <= 0x4e
  {
  }

  /** No two messages share an entry of the table, which has 0x4f entries. */
  lemma IndexInjective(c: byte, sc: byte, d: byte, sd: byte)
    requires Layout(c, sc).Some? && Layout(d, sd).Some? && CommandIndex(c, sc) == CommandIndex(d, sd)
    ensures c == d && sc == sd && CommandIndex(c, sc) <= 0x4e
  {
    LayoutKnown(c, sc);
    LayoutKnown(d, sd);
    IndexInjectiveOn(c, sc, d, sd);
  }

  // ----- the stored programs -----

  /** cpars: the string literals of the table, each with its terminating zero. */
  function CparsAt(i: nat): Option<seq<byte>> {
    if i < 0x13 then CparsFrom00(i)
    else if i < 0x26 then CparsFrom13(i)
    else if i < 0x38 then CparsFrom26(i)
    else CparsFrom38(i)
  }

  function CparsFrom00(i: nat): Option<seq<byte>> {
    match i
    case 0x01 => Some([0x03, 0x04, 0x0c, 0x27, 0x2f, 0x1c, 0x01, 0x01, 0x00])
    case 0x02 => Some([0x03, 0x14, 0x0e, 0x10, 0x0f, 0x11, 0x0d, 0x06, 0x08, 0x0a, 0x05, 0x07, 0x09, 0x01,
                       0x0b, 0x28, 0x22, 0x04, 0x0c, 0x27, 0x2f, 0x1c, 0x01, 0x01, 0x00])
    case 0x04 => Some([0x03, 0x04, 0x0c, 0x27, 0x2f, 0x1c, 0x01, 0x01, 0x00])
    case 0x05 => Some([0x03, 0x25, 0x12, 0x13, 0x10, 0x11, 0x01, 0x00])
    case 0x08 => Some([0x03, 0x0e, 0x04, 0x0c, 0x27, 0x2f, 0x1c, 0x01, 0x01, 0x00])
    case 0x09 => Some([0x03, 0x1f, 0x1e, 0x01, 0x00])
    case 0x0a => Some([0x03, 0x0d, 0x06, 0x08, 0x0a, 0x05, 0x07, 0x09, 0x01, 0x01, 0x00])
    case 0x0b => Some([0x03, 0x2b, 0x01, 0x00])
    case 0x0d => Some([0x03, 0x2b, 0x01, 0x00])
    case 0x0f => Some([0x03, 0x18, 0x1a, 0x19, 0x20, 0x01, 0x00])
    case 0x10 => Some([0x03, 0x2b, 0x01, 0x00])
    case _ => None
  }

  function CparsFrom13(i: nat): Option<seq<byte>> {
    match i
    case 0x13 => Some([0x03, 0x23, 0x01, 0x00])
    case 0x14 => Some([0x03, 0x23, 0x01, 0x00])
    case 0x16 => Some([0x03, 0x23, 0x01, 0x00])
    case 0x17 => Some([0x03, 0x23, 0x01, 0x00])
    case 0x18 => Some([0x03, 0x2a, 0x15, 0x21, 0x29, 0x01, 0x00])
    case 0x1a => Some([0x03, 0x23, 0x01, 0x00])
    case 0x1b => Some([0x03, 0x23, 0x1f, 0x1b, 0x01, 0x00])
    case 0x1c => Some([0x03, 0x23, 0x01, 0x00])
    case 0x1d => Some([0x03, 0x23, 0x01, 0x00])
    case 0x1f => Some([0x03, 0x23, 0x01, 0x00])
    case 0x21 => Some([0x03, 0x19, 0x23, 0x01, 0x00])
    case 0x22 => Some([0x03, 0x23, 0x01, 0x00])
    case _ => None
  }

  function CparsFrom26(i: nat): Option<seq<byte>> {
    match i
    case 0x26 => Some([0x03, 0x14, 0x0e, 0x10, 0x0f, 0x11, 0x0b, 0x28, 0x22, 0x04, 0x0c, 0x27, 0x2f, 0x1c,
                       0x01, 0x01, 0x00])
    case 0x27 => Some([0x03, 0x16, 0x17, 0x28, 0x01, 0x00])
    case 0x28 => Some([0x03, 0x2c, 0x01, 0x00])
    case 0x2a => Some([0x03, 0x2a, 0x15, 0x21, 0x29, 0x01, 0x00])
    case 0x2c => Some([0x03, 0x26, 0x24, 0x01, 0x00])
    case 0x2d => Some([0x03, 0x1f, 0x1d, 0x01, 0x00])
    case 0x2f => Some([0x03, 0x2b, 0x01, 0x00])
    case 0x30 => Some([0x03, 0x2b, 0x01, 0x00])
    case 0x31 => Some([0x03, 0x2d, 0x2b, 0x01, 0x00])
    case 0x33 => Some([0x03, 0x18, 0x1a, 0x19, 0x20, 0x01, 0x00])
    case 0x34 => Some([0x03, 0x2b, 0x01, 0x00])
    case 0x35 => Some([0x03, 0x2b, 0x01, 0x00])
    case _ => None
  }

  function CparsFrom38(i: nat): Option<seq<byte>> {
    match i
    case 0x38 => Some([0x03, 0x2e, 0x0d, 0x06, 0x08, 0x0a, 0x05, 0x07, 0x09, 0x01, 0x16, 0x17, 0x28, 0x04,
                       0x0c, 0x27, 0x2f, 0x1c, 0x01, 0x01, 0x00])
    case 0x39 => Some([0x03, 0x01, 0x00])
    case 0x3a => Some([0x03, 0x01, 0x00])
    case 0x3c => Some([0x03, 0x2a, 0x15, 0x21, 0x29, 0x01, 0x00])
    case 0x3e => Some([0x03, 0x01, 0x00])
    case 0x3f => Some([0x03, 0x1f, 0x01, 0x00])
    case 0x41 => Some([0x03, 0x2e, 0x2b, 0x01, 0x00])
    case 0x42 => Some([0x03, 0x01, 0x00])
    case 0x43 => Some([0x03, 0x01, 0x00])
    case 0x45 => Some([0x03, 0x19, 0x01, 0x00])
    case 0x46 => Some([0x03, 0x01, 0x00])
    case 0x47 => Some([0x03, 0x01, 0x00])
    case 0x4e => Some([0x03, 0x2a, 0x15, 0x21, 0x29, 0x01, 0x00])
    case _ => None
  }

  /** The literal that stores the parameters items. */
  function Literal(items: Items): seq<byte> { Coded(items) + [0x01, 0x00] }

  lemma Coded1(k: Kind, c: byte, tail: Items)
    ensures Coded(Items.Item(k, c, tail)) == [c] + Coded(tail)
  {
  }

  lemma Coded2(k: Kind, c: byte, l: Kind, d: byte, tail: Items)
    ensures Coded(Items.Item(k, c, Items.Item(l, d, tail))) == [c, d] + Coded(tail)
  {
    Coded1(l, d, tail);
  }

  lemma Coded4(k: Kind, c: seq<byte>, tail: Items)
    requires |c| == 4
    ensures Coded(Items.Item(k, c[0], Items.Item(k, c[1], Items.Item(k, c[2], Items.Item(k, c[3], tail)))))
      == c + Coded(tail)
  {
    var t := Items.Item(k, c[2], Items.Item(k, c[3], tail));
    Coded2(k, c[2], k, c[3], tail);
    Coded2(k, c[0], k, c[1], t);
  }

  lemma CallingCoded(tail: Items)
    ensures Coded(Calling(tail)) == [0x03, 0x14, 0x0e, 0x10, 0x0f, 0x11] + Coded(tail)
  {
    var t := S(0x0e, S(0x10, S(0x0f, S(0x11, tail))));
    Coded4(StructKind, [0x0e, 0x10, 0x0f, 0x11], tail);
    Coded2(DWordKind, 0x03, WordKind, 0x14, t);
  }

  lemma GroupCoded(c: byte, members: Items, tail: Items)
    ensures Coded(Group(c, members, tail)) == [c] + (Coded(members) + ([0x01] + Coded(tail)))
  {
  }

  lemma BProtocolCoded(tail: Items)
    ensures Coded(BProtocol(tail)) == [0x0d, 0x06, 0x08, 0x0a, 0x05, 0x07, 0x09, 0x01] + Coded(tail)
  {
    var t := S(0x05, S(0x07, S(0x09, Nil)));
    Coded2(StructKind, 0x07, StructKind, 0x09, Nil);
    Coded2(WordKind, 0x0a, StructKind, 0x05, S(0x07, S(0x09, Nil)));
    Coded2(WordKind, 0x06, WordKind, 0x08, W(0x0a, t));
    var members := W(0x06, W(0x08, W(0x0a, t)));
    assert Coded(members) == [0x06, 0x08, 0x0a, 0x05, 0x07, 0x09];
    GroupCoded(0x0d, members, tail);
  }

  lemma AdditionalInfoCoded(tail: Items)
    ensures Coded(AdditionalInfo(tail)) == [0x04, 0x0c, 0x27, 0x2f, 0x1c, 0x01] + Coded(tail)
  {
    Coded4(StructKind, [0x0c, 0x27, 0x2f, 0x1c], Nil);
    GroupCoded(0x04, S(0x0c, S(0x27, S(0x2f, S(0x1c, Nil)))), tail);
  }

  lemma CompatibilityCoded()
    ensures Coded(Compatibility()) == [0x0b, 0x28, 0x22, 0x04, 0x0c, 0x27, 0x2f, 0x1c, 0x01]
  {
    AdditionalInfoCoded(Nil);
    Coded1(StructKind, 0x22, AdditionalInfo(Nil));
    Coded2(StructKind, 0x0b, StructKind, 0x28, S(0x22, AdditionalInfo(Nil)));
  }

  lemma ConnectReqSpelled()
    ensures CparsAt(0x02) == Some(Literal(ConnectReq()))
  {
    ConnectReqCoded();
    assert CparsAt(0x02).value == Literal(ConnectReq());
  }

  lemma ConnectReqCoded()
    ensures Coded(ConnectReq())
      == [0x03, 0x14, 0x0e, 0x10, 0x0f, 0x11, 0x0d, 0x06, 0x08, 0x0a, 0x05, 0x07, 0x09, 0x01,
          0x0b, 0x28, 0x22, 0x04, 0x0c, 0x27, 0x2f, 0x1c, 0x01]
  {
    CallingCoded(BProtocol(Compatibility()));
    BProtocolCoded(Compatibility());
    CompatibilityCoded();
  }

  lemma ClearingSpelled()
    ensures Some(Literal(Clearing())) == CparsAt(0x01) == CparsAt(0x04)
  {
    AdditionalInfoCoded(Nil);
    assert CparsAt(0x01).value == Literal(Clearing());
  }

  lemma ListenReqSpelled()
    ensures CparsAt(0x05) == Some(Literal(ListenReq()))
  {
    var t := S(0x10, S(0x11, Nil));
    Coded2(StructKind, 0x10, StructKind, 0x11, Nil);
    Coded4(DWordKind, [0x03, 0x25, 0x12, 0x13], t);
    assert CparsAt(0x05).value == Literal(ListenReq());
  }

  lemma InfoReqSpelled()
    ensures CparsAt(0x08) == Some(Literal(Addressed(S(0x0e, AdditionalInfo(Nil)))))
  {
    AdditionalInfoCoded(Nil);
    Coded2(DWordKind, 0x03, StructKind, 0x0e, AdditionalInfo(Nil));
    assert CparsAt(0x08).value == Literal(Addressed(S(0x0e, AdditionalInfo(Nil))));
  }

  lemma SelectSpelled()
    ensures CparsAt(0x0a) == Some(Literal(Addressed(BProtocol(Nil))))
  {
    BProtocolCoded(Nil);
    assert CparsAt(0x0a).value == Literal(Addressed(BProtocol(Nil)));
  }

  lemma DataB3Spelled()
    ensures Some(Literal(DataB3())) == CparsAt(0x0f) == CparsAt(0x33)
  {
    var t := W(0x1a, W(0x19, W(0x20, Nil)));
    Coded1(WordKind, 0x20, Nil);
    Coded2(WordKind, 0x1a, WordKind, 0x19, W(0x20, Nil));
    Coded2(DWordKind, 0x03, DWordKind, 0x18, t);
    assert CparsAt(0x0f).value == Literal(DataB3());
  }

  lemma ManufacturerSpelled()
    ensures Some(Literal(Manufacturer())) == CparsAt(0x18) == CparsAt(0x2a) == CparsAt(0x3c) == CparsAt(0x4e)
  {
    Coded1(StructKind, 0x29, Nil);
    Coded4(DWordKind, [0x03, 0x2a, 0x15, 0x21], S(0x29, Nil));
    assert CparsAt(0x18).value == Literal(Manufacturer());
  }

  lemma ConnectIndSpelled()
    ensures CparsAt(0x26) == Some(Literal(ConnectInd()))
  {
    CallingCoded(Compatibility());
    CompatibilityCoded();
    assert CparsAt(0x26).value == Literal(ConnectInd());
  }

  lemma ActiveIndSpelled()
    ensures CparsAt(0x27) == Some(Literal(Addressed(S(0x16, S(0x17, S(0x28, Nil))))))
  {
    Coded2(StructKind, 0x17, StructKind, 0x28, Nil);
    Coded2(DWordKind, 0x03, StructKind, 0x16, S(0x17, S(0x28, Nil)));
    assert CparsAt(0x27).value == Literal(Addressed(S(0x16, S(0x17, S(0x28, Nil)))));
  }

  lemma ConnectRespSpelled()
    ensures CparsAt(0x38) == Some(Literal(ConnectResp()))
  {
    ConnectRespCoded();
    assert CparsAt(0x38).value == Literal(ConnectResp());
  }

  lemma ConnectRespCoded()
    ensures Coded(ConnectResp())
      == [0x03, 0x2e, 0x0d, 0x06, 0x08, 0x0a, 0x05, 0x07, 0x09, 0x01,
          0x16, 0x17, 0x28, 0x04, 0x0c, 0x27, 0x2f, 0x1c, 0x01]
  {
    ConnectedCoded(Connected());
    BProtocolCoded(Connected());
    Coded2(DWordKind, 0x03, WordKind, 0x2e, BProtocol(Connected()));
  }

  lemma ConnectedCoded(items: Items)
    requires items == Connected()
    ensures Coded(items) == [0x16, 0x17, 0x28, 0x04, 0x0c, 0x27, 0x2f, 0x1c, 0x01]
  {
    AdditionalInfoCoded(Nil);
    Coded1(StructKind, 0x28, AdditionalInfo(Nil));
    Coded2(StructKind, 0x16, StructKind, 0x17, S(0x28, AdditionalInfo(Nil)));
  }

  /** The short programs: one or two parameters behind the address. */
  lemma ShortSpelled(c: byte, k: Kind, d: byte, l: Kind)
    ensures Literal(Addressed(Nil)) == [0x03, 0x01, 0x00]
    ensures Literal(Addressed(Items.Item(k, c, Nil))) == [0x03, c, 0x01, 0x00]
    ensures Literal(Addressed(Items.Item(k, c, Items.Item(l, d, Nil)))) == [0x03, c, d, 0x01, 0x00]
  {
    Coded2(k, c, l, d, Nil);
    Coded1(k, c, Nil);
  }

  lemma ReqSpelled(c: byte)
    requires Layout(c, REQ).Some?
    ensures CparsAt(CommandIndex(c, REQ)) == Some(Literal(Layout(c, REQ).value))
  {
    if c == CONNECT { ConnectReqSpelled(); }
    else if c == SELECT_B_PROTOCOL { SelectSpelled(); }
    else if c == LISTEN { ListenReqSpelled(); }
    else if c == INFO { InfoReqSpelled(); }
    else if c == DATA_B3 { DataB3Spelled(); }
    else if c == MANUFACTURER { ManufacturerSpelled(); }
    else if c == ALERT || c == DISCONNECT { ClearingSpelled(); }
    else if c == FACILITY { ShortSpelled(0x1f, WordKind, 0x1e, StructKind); }
    else { ShortSpelled(0x2b, StructKind, 0, StructKind); }
  }

  lemma ConfSpelled(c: byte)
    requires Layout(c, CONF).Some?
    ensures CparsAt(CommandIndex(c, CONF)) == Some(Literal(Layout(c, CONF).value))
  {
    if c == MANUFACTURER { ManufacturerSpelled(); }
    else if c == FACILITY {
      Coded2(DWordKind, 0x03, WordKind, 0x23, W(0x1f, S(0x1b, Nil)));
      Coded2(WordKind, 0x1f, StructKind, 0x1b, Nil);
      assert CparsAt(0x1b).value == Literal(Layout(c, CONF).value);
    }
    else if c == DATA_B3 { ShortSpelled(0x19, WordKind, 0x23, WordKind); }
    else { ShortSpelled(0x23, WordKind, 0, StructKind); }
  }

  lemma IndSpelled(c: byte)
    requires Layout(c, IND).Some?
    ensures CparsAt(CommandIndex(c, IND)) == Some(Literal(Layout(c, IND).value))
  {
    if c == CONNECT { ConnectIndSpelled(); }
    else if c == CONNECT_ACTIVE { ActiveIndSpelled(); }
    else if c == DATA_B3 { DataB3Spelled(); }
    else if c == MANUFACTURER { ManufacturerSpelled(); }
    else if c == DISCONNECT { ShortSpelled(0x2c, WordKind, 0, StructKind); }
    else if c == INFO { ShortSpelled(0x26, WordKind, 0x24, StructKind); }
    else if c == FACILITY { ShortSpelled(0x1f, WordKind, 0x1d, StructKind); }
    else if c == DISCONNECT_B3 { ShortSpelled(0x2d, WordKind, 0x2b, StructKind); }
    else { ShortSpelled(0x2b, StructKind, 0, StructKind); }
  }

  lemma RespSpelled(c: byte)
    requires Layout(c, RESP).Some?
    ensures CparsAt(CommandIndex(c, RESP)) == Some(Literal(Layout(c, RESP).value))
  {
    if c == CONNECT { ConnectRespSpelled(); }
    else if c == MANUFACTURER { ManufacturerSpelled(); }
    else if c == FACILITY { ShortSpelled(0x1f, WordKind, 0, StructKind); }
    else if c == CONNECT_B3 { ShortSpelled(0x2e, WordKind, 0x2b, StructKind); }
    else { ShortSpelled(0x19, WordKind, 0, StructKind); }
  }

  /** The entry that the index function selects for a message spells exactly the parameters CAPI 2.0 lists
      for it. */
  lemma TableSpells(c: byte, sc: byte)
    requires Layout(c, sc).Some?
    ensures CparsAt(CommandIndex(c, sc)) == Some(Literal(Layout(c, sc).value))
  {
    if sc == REQ { ReqSpelled(c); }
    else if sc == CONF { ConfSpelled(c); }
    else if sc == IND { IndSpelled(c); }
    else { RespSpelled(c); }
  }

  /** The program as the encoder and the decoder see it. */
  function Program(c: byte, sc: byte): (ops: seq<Op>)
    requires Layout(c, sc).Some?
  {
    TableSound(c, sc);
    TableSpells(c, sc);
    CodedCodes(Layout(c, sc).value);
    Ops(AsCodes(CparsAt(CommandIndex(c, sc)).value))
  }

  lemma ProgramParses(c: byte, sc: byte)
    requires Layout(c, sc).Some?
    ensures Program(c, sc) == Flatten(Layout(c, sc).value) + ([Op.End] + [Op.End])
  {
    TableSound(c, sc);
    TableSpells(c, sc);
    var items := Layout(c, sc).value;
    CodedCodes(items);
    var rest: seq<code> := [0x01, 0x00];
    OpsCoded(items, AsCodes(Literal(items)), rest);
    assert Ops(rest) == [Op.End] + Ops(rest[1..]) && Ops(rest[1..]) == [Op.End] + Ops(rest[1..][1..]);
    assert Ops(rest) == [Op.End] + [Op.End];
  }
}
