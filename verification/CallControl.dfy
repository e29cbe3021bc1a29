/** The call control of capidrv.c for one controller: the PLCI and NCCI machines, the objects they live in,
    and what each message and each command of the ISDN layer does to them. */
module CallControl {
  import opened Wire
  import opened Programs
  import opened AckQueue

  // ----- objects -----

  /** Addresses.  Freed memory may be handed out again, and then counts as allocated: a pointer that has
      outlived its object is recorded in bad only as long as its address is not in use again. */
  type PlciPtr = nat
  type NcciPtr = nat

  datatype PlciState =
    PNone | POutgoing | PAllocated | PActive | PIncoming | PFacilityInd | PAccepting | PDisconnecting
    | PDisconnected | PResumeing | PResume | PHeld

  datatype PlciEvent =
    ConnectReq | ConnectConfError | ConnectConfOk | FacilityIndUp | ConnectInd | ConnectActiveInd | ConnectReject
    | DisconnectReq | DisconnectInd | FacilityIndDown | DisconnectResp | ConnectResp | ResumeReq | ResumeConfOk
    | ResumeConfError | ResumeInd | HoldInd | RetrieveInd | SuspendInd | CdInd

  datatype NcciState =
    NPrevious | NNone | NOutgoing | NIncoming | NAllocated | NActive | NReseting | NDisconnecting | NDisconnected

  datatype NcciEvent =
    B3Req | B3Ind | B3ConfOk | B3ConfError | B3Reject | B3Resp | B3ActiveInd | ResetReq | ResetInd
    | B3DisconnectInd | B3DisconnectConfError | B3DisconnectReq | B3DisconnectResp

  datatype Plci = Plci(plci: dword, msgid: word, chan: nat, state: PlciState, nccis: seq<NcciPtr>)

  /** up, sends and near are not in the driver: whether CONNECT_B3_ACTIVE_IND has arrived for the NCCI, how
      many blocks were handed on, and whether no send has met a block 65536 sends old. */
  datatype Ncci = Ncci(ncci: dword, msgid: word, chan: nat, state: NcciState, oldstate: NcciState, plcip: PlciPtr,
                       datahandle: word, acks: seq<Ack<int>>, up: bool, sends: nat, near: bool)

  datatype Bchan = Bchan(plcip: Option<PlciPtr>, nccip: Option<NcciPtr>, incoming: bool, disconnecting: bool)

  /** Messages sent and calls of the ISDN layer's statcallb.  reject is the parameter of that name in the
      responses that have one. */
  datatype Out =
    | Send(command: byte, subcommand: byte, adr: dword, number: Option<word>, reject: word := 0)
    | Stat(what: Status, chan: nat)

  datatype Status = DHUP | BHUP | DCONN | BCONN | BSENT(length: int) | ICALL | DISCH

  /** plcis and nccis hold the objects that are allocated; using any other is recorded in bad.  polite tells
      whether no PLCI has been freed while its channel still pointed to an NCCI. */
  datatype Card = Card(contrnr: nat, msgid: word, list: seq<PlciPtr>, plcis: map<PlciPtr, Plci>,
                       nccis: map<NcciPtr, Ncci>, bchans: seq<Bchan>, out: seq<Out>, bad: bool, polite: bool)

  // ----- the tables -----

  /** plcitable: the next state, and whether p0 is called. */
  function PlciNext(s: PlciState, e: PlciEvent): Option<(PlciState, bool)> {
    match (s, e)
    case (PNone, ConnectReq) => Some((POutgoing, false))
    case (PNone, FacilityIndUp) => Some((PAllocated, false))
    case (PNone, ConnectInd) => Some((PIncoming, false))
    case (PNone, ResumeReq) => Some((PResumeing, false))
    case (POutgoing, ConnectConfError) => Some((PNone, true))
    case (POutgoing, ConnectConfOk) => Some((PAllocated, false))
    case (PAllocated, ConnectActiveInd) => Some((PActive, false))
    case (PAllocated, DisconnectReq) => Some((PDisconnecting, false))
    case (PAllocated, FacilityIndDown) => Some((PDisconnecting, false))
    case (PAllocated, DisconnectInd) => Some((PDisconnected, false))
    case (PActive, DisconnectReq) => Some((PDisconnecting, false))
    case (PActive, FacilityIndDown) => Some((PDisconnecting, false))
    case (PActive, DisconnectInd) => Some((PDisconnected, false))
    case (PActive, HoldInd) => Some((PHeld, false))
    case (PActive, SuspendInd) => Some((PDisconnecting, false))
    case (PIncoming, ConnectReject) => Some((PDisconnecting, false))
    case (PIncoming, FacilityIndUp) => Some((PFacilityInd, false))
    case (PIncoming, ConnectResp) => Some((PAccepting, false))
    case (PIncoming, DisconnectReq) => Some((PDisconnecting, false))
    case (PIncoming, FacilityIndDown) => Some((PDisconnecting, false))
    case (PIncoming, DisconnectInd) => Some((PDisconnected, false))
    case (PIncoming, CdInd) => Some((PDisconnecting, false))
    case (PFacilityInd, ConnectReject) => Some((PDisconnecting, false))
    case (PFacilityInd, ConnectActiveInd) => Some((PAccepting, false))
    case (PFacilityInd, DisconnectReq) => Some((PDisconnecting, false))
    case (PFacilityInd, FacilityIndDown) => Some((PDisconnecting, false))
    case (PFacilityInd, DisconnectInd) => Some((PDisconnected, false))
    case (PAccepting, ConnectActiveInd) => Some((PActive, false))
    case (PAccepting, DisconnectReq) => Some((PDisconnecting, false))
    case (PAccepting, FacilityIndDown) => Some((PDisconnecting, false))
    case (PAccepting, DisconnectInd) => Some((PDisconnected, false))
    case (PDisconnecting, DisconnectInd) => Some((PDisconnected, false))
    case (PDisconnected, DisconnectResp) => Some((PNone, true))
    case (PResumeing, ResumeConfError) => Some((PNone, true))
    case (PResumeing, ResumeConfOk) => Some((PResume, false))
    case (PResume, ResumeInd) => Some((PActive, false))
    case (PHeld, RetrieveInd) => Some((PActive, false))
    case (_, _) => None
  }

  /** nccitable: the next state, and whether n0 is called. */
  function NcciNext(s: NcciState, e: NcciEvent): Option<(NcciState, bool)> {
    match (s, e)
    case (NNone, B3Req) => Some((NOutgoing, false))
    case (NNone, B3Ind) => Some((NIncoming, false))
    case (NOutgoing, B3ConfOk) => Some((NAllocated, false))
    case (NOutgoing, B3ConfError) => Some((NNone, true))
    case (NIncoming, B3Reject) => Some((NDisconnecting, false))
    case (NIncoming, B3Resp) => Some((NAllocated, false))
    case (NIncoming, B3DisconnectInd) => Some((NDisconnected, false))
    case (NIncoming, B3DisconnectReq) => Some((NDisconnecting, false))
    case (NAllocated, B3ActiveInd) => Some((NActive, false))
    case (NAllocated, B3DisconnectInd) => Some((NDisconnected, false))
    case (NAllocated, B3DisconnectReq) => Some((NDisconnecting, false))
    case (NActive, ResetInd) => Some((NActive, false))
    case (NActive, ResetReq) => Some((NReseting, false))
    case (NActive, B3DisconnectInd) => Some((NDisconnected, false))
    case (NActive, B3DisconnectReq) => Some((NDisconnecting, false))
    case (NReseting, ResetInd) => Some((NActive, false))
    case (NReseting, B3DisconnectInd) => Some((NDisconnected, false))
    case (NReseting, B3DisconnectReq) => Some((NDisconnecting, false))
    case (NDisconnecting, B3DisconnectInd) => Some((NDisconnected, false))
    case (NDisconnecting, B3DisconnectConfError) => Some((NPrevious, false))
    case (NDisconnected, B3DisconnectResp) => Some((NNone, true))
    case (_, _) => None
  }

  // ----- access -----

  function NewPlciAt(chan: nat): Plci { Plci(0, 0, chan, PNone, []) }

  const NO_NCCI := Ncci(0, 0, 0, NNone, NNone, 0, 0, [], false, 0, true)

  const NO_BCHAN := Bchan(None, None, false, false)

  function Pl(plcis: map<PlciPtr, Plci>, p: PlciPtr): Plci { if p in plcis then plcis[p] else NewPlciAt(0) }

  function Nc(nccis: map<NcciPtr, Ncci>, n: NcciPtr): Ncci { if n in nccis then nccis[n] else NO_NCCI }

  function Ch(bchans: seq<Bchan>, ch: nat): Bchan { if ch < |bchans| then bchans[ch] else NO_BCHAN }

  /** The object at p is used. */
  function UseP(c: Card, p: PlciPtr): Card { c.(bad := c.bad || p !in c.plcis) }

  function UseN(c: Card, n: NcciPtr): Card { c.(bad := c.bad || n !in c.nccis) }

  function WithP(c: Card, p: PlciPtr, r: Plci): Card { UseP(c, p).(plcis := c.plcis[p := r]) }

  function WithN(c: Card, n: NcciPtr, r: Ncci): Card { UseN(c, n).(nccis := c.nccis[n := r]) }

  function WithB(c: Card, ch: nat, b: Bchan): Card {
    if ch < |c.bchans| then c.(bchans := c.bchans[ch := b]) else c.(bad := true)
  }

  function Emit(c: Card, o: Out): Card { c.(out := c.out + [o]) }

  function NextNumber(c: Card): Card { c.(msgid := (c.msgid + 1) % WORDS) }

  /** Send a message numbered card->msgid++. */
  function Numbered(c: Card, command: byte, subcommand: byte, adr: dword): Card {
    Emit(NextNumber(c), Send(command, subcommand, adr, Some(c.msgid)))
  }

  /** Send the answer to the message just received. */
  function Answer(c: Card, command: byte, adr: dword): Card { Emit(c, Send(command, RESP, adr, None)) }

  // ----- allocating and freeing -----

  function NewPlci(c: Card, chan: nat, p: PlciPtr): Card {
    WithB(c.(plcis := c.plcis[p := NewPlciAt(chan)], list := [p] + c.list), chan, Ch(c.bchans, chan).(plcip := Some(p)))
  }

  function Remove<T(==)>(s: seq<T>, x: T): seq<T> {
    if s == [] then [] else if s[0] == x then s[1..] else [s[0]] + Remove(s[1..], x)
  }

  function FreePlci(c: Card, p: PlciPtr): Card {
    if p in c.list then
      var ch := Pl(c.plcis, p).chan;
      var b := Ch(c.bchans, ch);
      WithB(UseP(c, p).(list := Remove(c.list, p), plcis := c.plcis - {p}, polite := c.polite && b.nccip.None?), ch,
            Bchan(None, b.nccip, false, false))
    else c
  }

  function NewNcci(c: Card, p: PlciPtr, n: NcciPtr, ncci: dword): Card {
    var r := Pl(c.plcis, p);
    var d := WithP(c, p, r.(nccis := [n] + r.nccis));
    WithB(d.(nccis := c.nccis[n := NO_NCCI.(ncci := ncci, plcip := p, chan := r.chan)]), r.chan,
          Ch(c.bchans, r.chan).(nccip := Some(n)))
  }

  function FreeNcci(c: Card, n: NcciPtr): Card {
    var x := Nc(c.nccis, n);
    var r := Pl(c.plcis, x.plcip);
    var d := WithP(UseN(c, n), x.plcip, r.(nccis := Remove(r.nccis, n)));
    WithB(d.(nccis := c.nccis - {n}), x.chan, Ch(c.bchans, x.chan).(nccip := None))
  }

  // ----- the machines -----

  /** The driver's p0 also clears bchans[chan].contr, which nothing reads. */
  function P0(c: Card, p: PlciPtr): Card {
    FreePlci(Emit(UseP(c, p), Stat(DHUP, Pl(c.plcis, p).chan)), p)
  }

  function ChangePlci(c: Card, p: PlciPtr, e: PlciEvent): Card {
    match PlciNext(Pl(c.plcis, p).state, e)
    case None => UseP(c, p)
    case Some((next, free)) =>
      var d := WithP(c, p, Pl(c.plcis, p).(state := next));
      if free then P0(d, p) else d
  }

  function N0(c: Card, n: NcciPtr): Card {
    var x := Nc(c.nccis, n);
    var d := Numbered(UseP(UseN(c, n), x.plcip), DISCONNECT, REQ, Pl(c.plcis, x.plcip).plci);
    FreeNcci(Emit(ChangePlci(d, x.plcip, DisconnectReq), Stat(BHUP, x.chan)), n)
  }

  function ChangeNcci(c: Card, n: NcciPtr, e: NcciEvent): Card {
    var x := Nc(c.nccis, n);
    match NcciNext(x.state, e)
    case None => UseN(c, n)
    case Some((next, free)) =>
      var d := WithN(c, n, x.(oldstate := x.state, state := if next == NPrevious then x.oldstate else next));
      if free then N0(d, n) else d
  }

  // ----- lookup -----

  function PlciByNumber(c: Card, list: seq<PlciPtr>, plci: dword): Option<PlciPtr> {
    if list == [] then None
    else if Pl(c.plcis, list[0]).plci == plci then Some(list[0])
    else PlciByNumber(c, list[1..], plci)
  }

  function PlciByMsgid(c: Card, list: seq<PlciPtr>, msgid: word): Option<PlciPtr> {
    if list == [] then None
    else if Pl(c.plcis, list[0]).msgid == msgid then Some(list[0])
    else PlciByMsgid(c, list[1..], msgid)
  }

  function FindPlci(c: Card, plci: dword): Option<PlciPtr> { PlciByNumber(c, c.list, plci) }

  /** The PLCI of an NCCI is its low word. */
  function FindPlciOf(c: Card, ncci: dword): Option<PlciPtr> { PlciByNumber(c, c.list, ncci % WORDS) }

  function NcciByNumber(c: Card, list: seq<NcciPtr>, ncci: dword): Option<NcciPtr> {
    if list == [] then None
    else if Nc(c.nccis, list[0]).ncci == ncci then Some(list[0])
    else NcciByNumber(c, list[1..], ncci)
  }

  function NcciByMsgid(c: Card, list: seq<NcciPtr>, msgid: word): Option<NcciPtr> {
    if list == [] then None
    else if Nc(c.nccis, list[0]).msgid == msgid then Some(list[0])
    else NcciByMsgid(c, list[1..], msgid)
  }

  function FindNcci(c: Card, ncci: dword): Option<NcciPtr> {
    match FindPlciOf(c, ncci)
    case None => None
    case Some(p) => NcciByNumber(c, Pl(c.plcis, p).nccis, ncci)
  }

  function FindNcciByMsgid(c: Card, ncci: dword, msgid: word): Option<NcciPtr> {
    match FindPlciOf(c, ncci)
    case None => None
    case Some(p) => NcciByMsgid(c, Pl(c.plcis, p).nccis, msgid)
  }

  /** new_bchan: the first channel without a PLCI. */
  function FreeChannel(bchans: seq<Bchan>, from: nat): (i: nat)
    requires from <= |bchans|
    ensures from <= i <= |bchans| && (i < |bchans| ==> bchans[i].plcip == None)
    ensures forall k :: from <= k < i ==> bchans[k].plcip != None
    decreases |bchans| - from
  {
    if from == |bchans| || bchans[from].plcip == None then from else FreeChannel(bchans, from + 1)
  }

  // ----- commands of the ISDN layer -----

  datatype Command =
    | Dial(arg: nat, mem: Option<PlciPtr>)
    | Accept(arg: nat)
    | Hangup(arg: nat)
    | SendBuf(arg: nat, doack: bool, len: nat, answer: SendAnswer)

  /** What if_sendbuf meets: no memory for the acknowledgement entry or for headroom, or the answer of
      put_capi_message. */
  datatype SendAnswer = NoAckMemory | NoHeadroom | Taken | Refused

  function Channel(c: Card, arg: nat): nat { ChannelOf(|c.bchans|, arg) }

  function ChannelOf(nbchan: nat, arg: nat): nat { if nbchan == 0 then 0 else arg % nbchan }

  function DoDial(c: Card, arg: nat, mem: Option<PlciPtr>): Card {
    var ch := Channel(c, arg);
    if Ch(c.bchans, ch).plcip.Some? then c
    else
      match mem
      case None => Emit(NextNumber(c), Stat(DHUP, ch))
      case Some(p) =>
        var d := NewPlci(NextNumber(c), ch, p);
        var e := WithP(d, p, Pl(d.plcis, p).(msgid := c.msgid));
        Emit(ChangePlci(e, p, ConnectReq), Send(CONNECT, REQ, c.contrnr % 0x1_0000_0000, Some(c.msgid)))
  }

  function DoAccept(c: Card, arg: nat): Card {
    match Ch(c.bchans, Channel(c, arg)).plcip
    case None => c.(bad := true)
    case Some(p) =>
      var adr := Pl(c.plcis, p).plci;
      Emit(ChangePlci(NextNumber(UseP(c, p)), p, ConnectResp), Send(CONNECT, RESP, adr, Some(c.msgid)))
  }

  function Disconnecting(c: Card, ch: nat): Card { WithB(c, ch, Ch(c.bchans, ch).(disconnecting := true)) }

  function HangupNcci(c: Card, ch: nat, n: NcciPtr): Card {
    var d := NextNumber(UseN(Disconnecting(c, ch), n));
    Emit(ChangeNcci(d, n, B3DisconnectReq), Send(DISCONNECT_B3, REQ, Nc(c.nccis, n).ncci, Some(c.msgid)))
  }

  function HangupPlci(c: Card, ch: nat, p: PlciPtr): Card {
    var r := Pl(c.plcis, p);
    if r.state == PIncoming then Disconnecting(UseP(c, p), ch)
    else if r.plci != 0 then
      var d := NextNumber(Disconnecting(UseP(c, p), ch));
      Emit(ChangePlci(d, p, DisconnectReq), Send(DISCONNECT, REQ, r.plci, Some(c.msgid)))
    else UseP(c, p)
  }

  function DoHangup(c: Card, arg: nat): Card {
    var ch := Channel(c, arg);
    var b := Ch(c.bchans, ch);
    if b.disconnecting then c
    else if b.nccip.Some? then HangupNcci(c, ch, b.nccip.value)
    else if b.plcip.Some? then HangupPlci(c, ch, b.plcip.value)
    else c
  }

  /** An NCCI after capidrv_add_ack. */
  function Queued(x: Ncci, handle: word, len: int): Ncci {
    x.(acks := x.acks + [Ack(handle, x.sends, len)], near := x.near && Near(x.acks, x.sends))
  }

  /** An NCCI after if_sendbuf on it; a failed send takes its acknowledgement entry back. */
  function Sending(x: Ncci, doack: bool, len: nat, a: SendAnswer): Ncci {
    if a == NoAckMemory then x
    else
      var y := Queued(x, x.datahandle, if doack then len else -1);
      if a == Taken then y.(datahandle := (x.datahandle + 1) % WORDS, sends := x.sends + 1)
      else y.(acks := Del(y.acks, x.datahandle))
  }

  function DoSendBuf(c: Card, arg: nat, doack: bool, len: nat, a: SendAnswer): Card {
    var b := Ch(c.bchans, Channel(c, arg));
    match b.nccip
    case None => c
    case Some(n) =>
      var x := Nc(c.nccis, n);
      if x.state != NActive then UseN(c, n)
      else
        var d := if a == NoAckMemory then NextNumber(UseN(c, n))
                 else WithN(NextNumber(c), n, Sending(x, doack, len, a));
        if a == Taken || a == Refused then Emit(d, Send(DATA_B3, REQ, x.ncci, Some(c.msgid))) else d
  }

  function DoCommand(c: Card, k: Command): Card {
    match k
    case Dial(arg, mem) => DoDial(c, arg, mem)
    case Accept(arg) => DoAccept(c, arg)
    case Hangup(arg) => DoHangup(c, arg)
    case SendBuf(arg, doack, len, a) => DoSendBuf(c, arg, doack, len, a)
  }

  // ----- messages -----

  /** mem is the memory for a new object, if there is any.  For CONNECT_IND, calls are the commands the ISDN
      layer gives from within its ICALL callback, and verdict is what that callback returns. */
  datatype Message =
    | DisconnectIndMsg(plci: dword)
    | DisconnectConfMsg(plci: dword)
    | ConnectIndMsg(plci: dword, mem: Option<PlciPtr>, calls: seq<Command>, verdict: int)
    | ConnectConfMsg(plci: dword, number: word, info: word)
    | ConnectActiveIndMsg(plci: dword, memN: Option<NcciPtr>)
    | B3ActiveIndMsg(ncci: dword)
    | B3IndMsg(ncci: dword, memN: Option<NcciPtr>)
    | B3ConfMsg(ncci: dword, number: word, info: word)
    | B3T90ActiveIndMsg(ncci: dword)
    | DataB3ConfMsg(ncci: dword, handle: word)
    | B3DisconnectIndMsg(ncci: dword)
    | B3DisconnectConfMsg(ncci: dword, info: word)
    | ResetB3IndMsg(ncci: dword)

  function DoDisconnectInd(c: Card, plci: dword): Card {
    match FindPlci(c, plci)
    case None => Answer(c, DISCONNECT, plci)
    case Some(p) =>
      var d := ChangePlci(Disconnecting(c, Pl(c.plcis, p).chan), p, DisconnectInd);
      ChangePlci(Answer(d, DISCONNECT, plci), p, DisconnectResp)
  }

  function DoDisconnectConf(c: Card, plci: dword): Card {
    match FindPlci(c, plci)
    case None => c
    case Some(p) => Disconnecting(c, Pl(c.plcis, p).chan)
  }

  function RunCalls(c: Card, calls: seq<Command>): Card
    decreases |calls|
  {
    if calls == [] then c else RunCalls(DoCommand(c, calls[0]), calls[1..])
  }

  /** A new incoming PLCI on channel ch, as the ISDN layer sees it in its callback. */
  function Ringing(c: Card, ch: nat, p: PlciPtr, plci: dword): Card {
    var d := NewPlci(c, ch, p);
    var e := WithB(d, ch, Ch(d.bchans, ch).(incoming := true));
    ChangePlci(WithP(e, p, Pl(e.plcis, p).(plci := plci)), p, ConnectInd)
  }

  /** The Reject parameter: ignore the call, reject it, or destination out of order. */
  function RejectFor(verdict: int): word {
    if verdict == 0 || verdict == 3 then 1 else if verdict == 2 then 2 else 8
  }

  function Turned(c: Card, plci: dword, verdict: int): Card {
    Emit(c, Send(CONNECT, RESP, plci, None, RejectFor(verdict)))
  }

  /** What handle_incoming_call does with the callback's verdict. */
  function Judge(c: Card, p: PlciPtr, plci: dword, verdict: int): Card {
    if verdict == 1 then
      if Pl(c.plcis, p).state == PIncoming then
        var d := WithP(NextNumber(c), p, Pl(c.plcis, p).(msgid := c.msgid));
        Emit(d, Send(ALERT, REQ, Pl(c.plcis, p).plci, Some(c.msgid)))
      else UseP(c, p)
    else ChangePlci(Turned(c, plci, verdict), p, ConnectReject)
  }

  function DoConnectInd(c: Card, plci: dword, mem: Option<PlciPtr>, calls: seq<Command>, verdict: int): Card {
    var ch := FreeChannel(c.bchans, 0);
    if ch == |c.bchans| then c
    else
      var b := WithB(c, ch, Ch(c.bchans, ch).(disconnecting := false));
      match mem
      case None => b
      case Some(p) => Judge(RunCalls(Emit(Ringing(b, ch, p, plci), Stat(ICALL, ch)), calls), p, plci, verdict)
  }

  function DoConnectConf(c: Card, plci: dword, number: word, info: word): Card {
    match PlciByMsgid(c, c.list, number)
    case None => c
    case Some(p) =>
      ChangePlci(WithP(c, p, Pl(c.plcis, p).(plci := plci)), p, if info != 0 then ConnectConfError else ConnectConfOk)
  }

  /** Up to and including the ISDN layer's DCONN callback. */
  function NewB3(c: Card, p: PlciPtr, n: NcciPtr, plci: dword): Card {
    var d := NewNcci(Answer(c, CONNECT_ACTIVE, plci), p, n, plci);
    var e := WithN(Numbered(d, CONNECT_B3, REQ, Pl(d.plcis, p).plci), n, Nc(d.nccis, n).(msgid := c.msgid));
    Emit(e, Stat(DCONN, Pl(c.plcis, p).chan))
  }

  function DoConnectActiveInd(c: Card, plci: dword, mem: Option<NcciPtr>): Card {
    match FindPlci(c, plci)
    case None => c
    case Some(p) =>
      if Ch(c.bchans, Pl(c.plcis, p).chan).incoming then
        ChangePlci(Answer(c, CONNECT_ACTIVE, plci), p, ConnectActiveInd)
      else
        match mem
        case None => Answer(c, CONNECT_ACTIVE, plci)
        case Some(n) => ChangeNcci(ChangePlci(NewB3(c, p, n, plci), p, ConnectActiveInd), n, B3Req)
  }

  function DoB3ActiveInd(c: Card, ncci: dword): Card {
    match FindNcci(c, ncci)
    case None => c
    case Some(n) =>
      var d := Answer(c, CONNECT_B3_ACTIVE, ncci);
      var e := ChangeNcci(WithN(d, n, Nc(d.nccis, n).(up := true)), n, B3ActiveInd);
      Emit(e, Stat(BCONN, Nc(c.nccis, n).chan))
  }

  function DoB3Ind(c: Card, ncci: dword, mem: Option<NcciPtr>): Card {
    match (FindPlciOf(c, ncci), mem)
    case (Some(p), Some(n)) =>
      var d := ChangeNcci(NewNcci(c, p, n, ncci), n, B3Ind);
      ChangeNcci(Numbered(d, CONNECT_B3, RESP, ncci), n, B3Resp)
    case (_, _) => Emit(NextNumber(c), Send(CONNECT_B3, RESP, ncci, Some(c.msgid), 2))
  }

  function DoB3Conf(c: Card, ncci: dword, number: word, info: word): Card {
    match FindNcciByMsgid(c, ncci, number)
    case None => c
    case Some(n) =>
      ChangeNcci(WithN(c, n, Nc(c.nccis, n).(ncci := ncci)), n, if info != 0 then B3ConfError else B3ConfOk)
  }

  function DoDataB3Conf(c: Card, ncci: dword, handle: word): Card {
    match FindNcci(c, ncci)
    case None => c
    case Some(n) =>
      var x := Nc(c.nccis, n);
      var i := Find(x.acks, handle);
      var d := WithN(c, n, x.(acks := Del(x.acks, handle)));
      if i < |x.acks| && x.acks[i].what >= 0 then Emit(d, Stat(BSENT(x.acks[i].what), x.chan)) else d
  }

  function DoB3DisconnectInd(c: Card, ncci: dword): Card {
    match FindNcci(c, ncci)
    case None => c
    case Some(n) =>
      var d := ChangeNcci(Disconnecting(c, Nc(c.nccis, n).chan), n, B3DisconnectInd);
      ChangeNcci(Answer(d, DISCONNECT_B3, ncci), n, B3DisconnectResp)
  }

  function DoB3DisconnectConf(c: Card, ncci: dword, info: word): Card {
    match FindNcci(c, ncci)
    case None => c
    case Some(n) => if info != 0 then ChangeNcci(c, n, B3DisconnectConfError) else c
  }

  function DoResetB3Ind(c: Card, ncci: dword): Card {
    match FindNcci(c, ncci)
    case None => c
    case Some(n) => Answer(ChangeNcci(c, n, ResetInd), RESET_B3, ncci)
  }

  function Address(m: Message): dword {
    match m
    case DisconnectIndMsg(plci) => plci
    case DisconnectConfMsg(plci) => plci
    case ConnectIndMsg(plci, _, _, _) => plci
    case ConnectConfMsg(plci, _, _) => plci
    case ConnectActiveIndMsg(plci, _) => plci
    case B3ActiveIndMsg(ncci) => ncci
    case B3IndMsg(ncci, _) => ncci
    case B3ConfMsg(ncci, _, _) => ncci
    case B3T90ActiveIndMsg(ncci) => ncci
    case DataB3ConfMsg(ncci, _) => ncci
    case B3DisconnectIndMsg(ncci) => ncci
    case B3DisconnectConfMsg(ncci, _) => ncci
    case ResetB3IndMsg(ncci) => ncci
  }

  /** The messages that have a case in handle_plci; the others have theirs in handle_ncci. */
  predicate ForPlci(m: Message) {
    m.DisconnectIndMsg? || m.DisconnectConfMsg? || m.ConnectIndMsg? || m.ConnectConfMsg? || m.ConnectActiveIndMsg?
  }

  /** Bits 0 to 6 of an address are the number of the controller. */
  predicate ForCard(contrnr: nat, adr: dword) { adr % 0x80 == contrnr }

  /** The address of a PLCI of the controller: there is a PLCI part and no NCCI part. */
  predicate PlciAddress(contrnr: nat, adr: dword) { 0x100 <= adr < WORDS && ForCard(contrnr, adr) }

  predicate NcciAddress(contrnr: nat, adr: dword) { WORDS <= adr && ForCard(contrnr, adr) }

  /** The message comes to the handler that has a case for it. */
  predicate Dispatched(c: Card, m: Message) {
    if ForPlci(m) then PlciAddress(c.contrnr, Address(m)) else NcciAddress(c.contrnr, Address(m))
  }

  function DoMessage(c: Card, m: Message): Card {
    match m
    case DisconnectIndMsg(plci) => DoDisconnectInd(c, plci)
    case DisconnectConfMsg(plci) => DoDisconnectConf(c, plci)
    case ConnectIndMsg(plci, mem, calls, verdict) => DoConnectInd(c, plci, mem, calls, verdict)
    case ConnectConfMsg(plci, number, info) => DoConnectConf(c, plci, number, info)
    case ConnectActiveIndMsg(plci, mem) => DoConnectActiveInd(c, plci, mem)
    case B3ActiveIndMsg(ncci) => DoB3ActiveInd(c, ncci)
    case B3IndMsg(ncci, mem) => DoB3Ind(c, ncci, mem)
    case B3ConfMsg(ncci, number, info) => DoB3Conf(c, ncci, number, info)
    case B3T90ActiveIndMsg(ncci) => Answer(c, CONNECT_B3_T90_ACTIVE, ncci)
    case DataB3ConfMsg(ncci, handle) => DoDataB3Conf(c, ncci, handle)
    case B3DisconnectIndMsg(ncci) => DoB3DisconnectInd(c, ncci)
    case B3DisconnectConfMsg(ncci, info) => DoB3DisconnectConf(c, ncci, info)
    case ResetB3IndMsg(ncci) => DoResetB3Ind(c, ncci)
  }
  /** capidrv_recv_message.  A message whose address belongs to another controller or leads to another handler
      is reported and ignored. */
  function Receive(c: Card, m: Message): Card { if Dispatched(c, m) then DoMessage(c, m) else c }
}
