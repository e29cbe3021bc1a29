/** What holds in every run of messages and commands for a controller. */
module CallRuns {
  import opened Wire
  import opened Programs
  import opened AckQueue
  import opened CallControl
  import opened CallInvariant
  import opened CallSteps

  datatype Event = Recv(m: Message) | Call(k: Command)

  function Do(c: Card, e: Event): Card {
    match e
    case Recv(m) => Receive(c, m)
    case Call(k) => DoCommand(c, k)
  }

  /** What the surroundings guarantee: new memory is not in use; the controller has channels; and only calls
      that exist are accepted. */
  ghost predicate May(c: Card, e: Event) {
    match e
    case Recv(m) => Dispatched(c, m) ==> MayReceive(c, m)
    case Call(k) =>
      && |c.bchans| > 0
      && (k.Dial? && k.mem.Some? ==> k.mem.value !in c.plcis)
      && (k.Accept? ==> Ch(c.bchans, Channel(c, k.arg)).plcip.Some?)
  }

  ghost predicate MayReceive(c: Card, m: Message) {
    match m
    case ConnectIndMsg(plci, mem, calls, _) =>
      && (mem.Some? ==> mem.value !in c.plcis)
      && var ch := FreeChannel(c.bchans, 0);
         (ch < |c.bchans| && mem.Some? ==>
            CallSteps.CallsOk(Emit(Ringing(Chosen(c, ch), ch, mem.value, plci), Stat(ICALL, ch)), calls))
    case ConnectActiveIndMsg(_, memN) => memN.Some? ==> memN.value !in c.nccis
    case B3IndMsg(_, memN) => memN.Some? ==> memN.value !in c.nccis
    case _ => true
  }

  lemma KeepMessage(c: Card, m: Message)
    requires Inv(c) && Dispatched(c, m) && MayReceive(c, m)
    ensures Inv(DoMessage(c, m))
  {
    match m
    case DisconnectIndMsg(plci) => KeepDisconnectInd(c, plci);
    case DisconnectConfMsg(plci) => KeepDisconnectConf(c, plci);
    case ConnectIndMsg(plci, mem, calls, verdict) => KeepConnectInd(c, plci, mem, calls, verdict);
    case ConnectConfMsg(plci, number, info) => KeepConnectConf(c, plci, number, info);
    case ConnectActiveIndMsg(plci, memN) => KeepConnectActiveInd(c, plci, memN);
    case _ => KeepB3Message(c, m);
  }

  lemma KeepB3Message(c: Card, m: Message)
    requires Inv(c) && Dispatched(c, m) && MayReceive(c, m) && !ForPlci(m)
    ensures Inv(DoMessage(c, m))
  {
    match m
    case B3ActiveIndMsg(ncci) => KeepB3ActiveInd(c, ncci);
    case B3IndMsg(ncci, memN) => KeepB3Ind(c, ncci, memN);
    case B3ConfMsg(ncci, number, info) => KeepB3Conf(c, ncci, number, info);
    case B3T90ActiveIndMsg(ncci) => RestsWithout(c, Answer(c, CONNECT_B3_T90_ACTIVE, ncci));
    case DataB3ConfMsg(ncci, handle) => KeepDataB3Conf(c, ncci, handle);
    case B3DisconnectIndMsg(ncci) => KeepB3DisconnectInd(c, ncci);
    case B3DisconnectConfMsg(ncci, info) => KeepB3DisconnectConf(c, ncci, info);
    case ResetB3IndMsg(ncci) => KeepResetB3Ind(c, ncci);
  }

  /** Every message keeps the invariant. */
  lemma KeepReceive(c: Card, m: Message)
    requires Inv(c) && May(c, Recv(m))
    ensures Inv(Receive(c, m))
  {
    if Dispatched(c, m) { KeepMessage(c, m); }
  }

  lemma KeepCommand(c: Card, k: Command)
    requires Inv(c) && May(c, Call(k))
    ensures Inv(DoCommand(c, k))
  {
    match k
    case Dial(arg, mem) => KeepDial(c, arg, mem);
    case Accept(arg) => KeepAccept(c, arg);
    case Hangup(arg) => KeepHangup(c, arg);
    case SendBuf(arg, doack, len, a) => KeepSendBuf(c, arg, doack, len, a);
  }

  ghost predicate Possible(c: Card, es: seq<Event>)
    decreases |es|
  {
    es != [] ==> May(c, es[0]) && Possible(Do(c, es[0]), es[1..])
  }

  function After(c: Card, es: seq<Event>): Card
    decreases |es|
  {
    if es == [] then c else After(Do(c, es[0]), es[1..])
  }

  lemma {:induction false} RunKeeps(c: Card, es: seq<Event>)
    requires Inv(c) && Possible(c, es)
    ensures Inv(After(c, es))
    decreases |es|
  {
    if es != [] {
      match es[0]
      case Recv(m) => KeepReceive(c, m); RunKeeps(Do(c, es[0]), es[1..]);
      case Call(k) => KeepCommand(c, k); RunKeeps(Do(c, es[0]), es[1..]);
    }
  }

  /** In every run the objects, lists and channels fit together, both machines rest where they may, and no
      handler has used an object that was freed. */
  lemma EveryRun(contrnr: nat, nbchan: nat, es: seq<Event>)
    requires contrnr > 0 && Possible(Init(contrnr, nbchan), es)
    ensures Inv(After(Init(contrnr, nbchan), es)) && !After(Init(contrnr, nbchan), es).bad
  {
    InitInv(contrnr, nbchan);
    RunKeeps(Init(contrnr, nbchan), es);
  }

  // ----- what the invariant says -----

  /** Channels and PLCIs are in bijection. */
  lemma Bijection(c: Card, ch: nat, p: PlciPtr)
    requires Inv(c) && ch < |c.bchans|
    ensures c.bchans[ch].plcip == Some(p) <==> p in c.list && p in c.plcis && c.plcis[p].chan == ch
  {
    assert ChanOk(ch, Ch(c.bchans, ch), c.plcis, c.nccis, c.polite);
    assert p in c.plcis ==> PlciOk(p, Pl(c.plcis, p), c.list, c.bchans);
  }

  /** A PLCI that owns an NCCI is not outgoing, so that ending the NCCI leaves it disconnecting. */
  lemma OwnerDisconnects(c: Card, p: PlciPtr, n: NcciPtr)
    requires Inv(c) && p in c.plcis && n in c.plcis[p].nccis
    ensures c.plcis[p].state != POutgoing
    ensures p in N0(c, n).plcis && N0(c, n).plcis[p].state == PDisconnecting && n !in N0(c, n).nccis
  {
    OwnedIs(c, p, n);
    N0Ends(c, p, n);
  }

  /** As long as no PLCI was freed while its channel pointed to an NCCI, a channel points to no NCCI or to a
      live one of that channel, in the list of the PLCI that is on the channel. */
  lemma ChannelNcci(c: Card, ch: nat)
    requires Inv(c) && c.polite && ch < |c.bchans| && c.bchans[ch].nccip.Some?
    ensures var n := c.bchans[ch].nccip.value;
      && n in c.nccis && c.nccis[n].chan == ch && c.bchans[ch].plcip == Some(c.nccis[n].plcip)
      && c.nccis[n].plcip in c.plcis && n in c.plcis[c.nccis[n].plcip].nccis
  {
    var n := c.bchans[ch].nccip.value;
    assert ChanOk(ch, Ch(c.bchans, ch), c.plcis, c.nccis, c.polite);
    var p := c.nccis[n].plcip;
    assert LinkOk(p, Pl(c.plcis, p), n, c.nccis) && PlciOk(p, Pl(c.plcis, p), c.list, c.bchans);
  }

  // ----- polite networks -----

  /** DISCONNECT_IND arrives only for a PLCI whose NCCI list is empty. */
  ghost predicate Polite(c: Card, e: Event) {
    e.Recv? && e.m.DisconnectIndMsg? && Dispatched(c, e.m) && FindPlci(c, e.m.plci).Some? ==>
      Pl(c.plcis, FindPlci(c, e.m.plci).value).nccis == []
  }

  lemma PolitePlci(c: Card, p: PlciPtr, e: PlciEvent)
    requires e == DisconnectReq || e == DisconnectInd || e == ConnectActiveInd || e == ConnectReject
      || e == ConnectReq || e == ConnectResp || e == ConnectInd || e == ConnectConfOk
    ensures ChangePlci(c, p, e).polite == c.polite
  {
  }

  lemma PoliteN0(c: Card, n: NcciPtr)
    ensures N0(c, n).polite == c.polite
  {
    var p := Nc(c.nccis, n).plcip;
    PolitePlci(Numbered(UseP(UseN(c, n), p), DISCONNECT, REQ, Pl(c.plcis, p).plci), p, DisconnectReq);
  }

  lemma PoliteNcci(c: Card, n: NcciPtr, e: NcciEvent)
    ensures ChangeNcci(c, n, e).polite == c.polite
  {
    var x := Nc(c.nccis, n);
    var t := NcciNext(x.state, e);
    if t.Some? && t.value.1 {
      PoliteN0(WithN(c, n, NextN(x, e)), n);
    }
  }

  /** A PLCI without NCCIs is freed while its channel points to none. */
  lemma EndsPolitely(c: Card, d: Card, p: PlciPtr, e: PlciEvent)
    requires Inv(c) && c.polite && d.polite && p in c.plcis && c.plcis[p].nccis == []
    requires p in d.plcis && d.plcis[p].chan == c.plcis[p].chan && |d.bchans| == |c.bchans|
    requires forall ch :: 0 <= ch < |c.bchans| ==> d.bchans[ch].nccip == c.bchans[ch].nccip
    ensures ChangePlci(d, p, e).polite
  {
    assert PlciOk(p, Pl(c.plcis, p), c.list, c.bchans);
    var ch := c.plcis[p].chan;
    if c.bchans[ch].nccip.Some? { ChannelNcci(c, ch); }
  }

  lemma PoliteDisconnectInd(c: Card, plci: dword)
    requires Inv(c) && c.polite && PlciAddress(c.contrnr, plci) && Polite(c, Recv(DisconnectIndMsg(plci)))
    ensures DoDisconnectInd(c, plci).polite
  {
    if FindPlci(c, plci).Some? {
      FoundPlci(c, plci);
      var p := FindPlci(c, plci).value;
      Flagged(c, c.plcis[p].chan);
      var d := Disconnecting(c, c.plcis[p].chan);
      MovePlci(d, p, DisconnectInd);
      PolitePlci(d, p, DisconnectInd);
      EndsPolitely(c, Answer(ChangePlci(d, p, DisconnectInd), DISCONNECT, plci), p, DisconnectResp);
    }
  }

  lemma PoliteConnectConf(c: Card, plci: dword, number: word, info: word)
    requires Inv(c) && c.polite && plci != 0
    ensures DoConnectConf(c, plci, number, info).polite
  {
    if PlciByMsgid(c, c.list, number).Some? {
      PlciByMsgidIs(c, c.list, number);
      var p := PlciByMsgid(c, c.list, number).value;
      var d := WithP(c, p, c.plcis[p].(plci := plci));
      assert PlciRests(Pl(c.plcis, p));
      if c.plcis[p].state == POutgoing {
        EndsPolitely(c, d, p, if info != 0 then ConnectConfError else ConnectConfOk);
      }
    }
  }

  lemma {:induction false} PoliteCalls(c: Card, calls: seq<Command>)
    ensures RunCalls(c, calls).polite == c.polite
    decreases |calls|
  {
    if calls != [] {
      PoliteCommand(c, calls[0]);
      PoliteCalls(DoCommand(c, calls[0]), calls[1..]);
    }
  }

  lemma PoliteCommand(c: Card, k: Command)
    ensures DoCommand(c, k).polite == c.polite
  {
    match k
    case Dial(arg, mem) =>
    case Accept(arg) =>
    case Hangup(arg) => PoliteHangup(c, arg);
    case SendBuf(_, _, _, _) =>
  }

  lemma PoliteHangup(c: Card, arg: nat)
    ensures DoHangup(c, arg).polite == c.polite
  {
    var ch := Channel(c, arg);
    var b := Ch(c.bchans, ch);
    if !b.disconnecting && b.nccip.Some? {
      PoliteNcci(NextNumber(UseN(Disconnecting(c, ch), b.nccip.value)), b.nccip.value, B3DisconnectReq);
    } else if !b.disconnecting && b.plcip.Some? {
      PolitePlci(NextNumber(Disconnecting(UseP(c, b.plcip.value), ch)), b.plcip.value, DisconnectReq);
    }
  }

  lemma PoliteRinging(c: Card, ch: nat, p: PlciPtr, plci: dword)
    ensures Ringing(c, ch, p, plci).polite == c.polite
  {
  }

  lemma PoliteJudge(c: Card, p: PlciPtr, plci: dword, verdict: int)
    ensures Judge(c, p, plci, verdict).polite == c.polite
  {
    PolitePlci(Turned(c, plci, verdict), p, ConnectReject);
  }

  lemma PoliteConnectInd(c: Card, plci: dword, mem: Option<PlciPtr>, calls: seq<Command>, verdict: int)
    ensures DoConnectInd(c, plci, mem, calls, verdict).polite == c.polite
  {
    var ch := FreeChannel(c.bchans, 0);
    if ch < |c.bchans| && mem.Some? {
      PoliteRinging(Chosen(c, ch), ch, mem.value, plci);
      var d := Emit(Ringing(Chosen(c, ch), ch, mem.value, plci), Stat(ICALL, ch));
      PoliteCalls(d, calls);
      PoliteJudge(RunCalls(d, calls), mem.value, plci, verdict);
    }
  }

  lemma PoliteNewB3(c: Card, p: PlciPtr, n: NcciPtr, plci: dword)
    ensures NewB3(c, p, n, plci).polite == c.polite
  {
  }

  lemma PoliteConnectActiveInd(c: Card, plci: dword, mem: Option<NcciPtr>)
    ensures DoConnectActiveInd(c, plci, mem).polite == c.polite
  {
    if FindPlci(c, plci).Some? {
      var p := FindPlci(c, plci).value;
      PolitePlci(Answer(c, CONNECT_ACTIVE, plci), p, ConnectActiveInd);
      if mem.Some? { PoliteActive(NewB3(c, p, mem.value, plci), p, mem.value); PoliteNewB3(c, p, mem.value, plci); }
    }
  }

  lemma PoliteActive(c: Card, p: PlciPtr, n: NcciPtr)
    ensures ChangeNcci(ChangePlci(c, p, ConnectActiveInd), n, B3Req).polite == c.polite
  {
    PolitePlci(c, p, ConnectActiveInd);
    PoliteNcci(ChangePlci(c, p, ConnectActiveInd), n, B3Req);
  }

  lemma PoliteB3Message(c: Card, m: Message)
    requires !ForPlci(m)
    ensures DoMessage(c, m).polite == c.polite
  {
    match m
    case B3ActiveIndMsg(ncci) => PoliteB3ActiveInd(c, ncci);
    case B3IndMsg(ncci, memN) => PoliteB3Ind(c, ncci, memN);
    case B3ConfMsg(ncci, number, info) => PoliteB3Conf(c, ncci, number, info);
    case B3T90ActiveIndMsg(ncci) =>
    case DataB3ConfMsg(ncci, handle) =>
    case B3DisconnectIndMsg(ncci) => PoliteB3DisconnectInd(c, ncci);
    case B3DisconnectConfMsg(ncci, info) =>
      if FindNcci(c, ncci).Some? { PoliteNcci(c, FindNcci(c, ncci).value, B3DisconnectConfError); }
    case ResetB3IndMsg(ncci) =>
      if FindNcci(c, ncci).Some? { PoliteNcci(c, FindNcci(c, ncci).value, ResetInd); }
  }

  lemma PoliteB3ActiveInd(c: Card, ncci: dword)
    ensures DoB3ActiveInd(c, ncci).polite == c.polite
  {
    if FindNcci(c, ncci).Some? {
      var n, d := FindNcci(c, ncci).value, Answer(c, CONNECT_B3_ACTIVE, ncci);
      PoliteNcci(WithN(d, n, Nc(d.nccis, n).(up := true)), n, B3ActiveInd);
    }
  }

  lemma PoliteB3Ind(c: Card, ncci: dword, mem: Option<NcciPtr>)
    ensures DoB3Ind(c, ncci, mem).polite == c.polite
  {
    if FindPlciOf(c, ncci).Some? && mem.Some? {
      var d := NewNcci(c, FindPlciOf(c, ncci).value, mem.value, ncci);
      PoliteNcci(d, mem.value, B3Ind);
      PoliteNcci(Numbered(ChangeNcci(d, mem.value, B3Ind), CONNECT_B3, RESP, ncci), mem.value, B3Resp);
    }
  }

  lemma PoliteB3Conf(c: Card, ncci: dword, number: word, info: word)
    ensures DoB3Conf(c, ncci, number, info).polite == c.polite
  {
    if FindNcciByMsgid(c, ncci, number).Some? {
      var n := FindNcciByMsgid(c, ncci, number).value;
      PoliteNcci(WithN(c, n, Nc(c.nccis, n).(ncci := ncci)), n, if info != 0 then B3ConfError else B3ConfOk);
    }
  }

  lemma PoliteB3DisconnectInd(c: Card, ncci: dword)
    ensures DoB3DisconnectInd(c, ncci).polite == c.polite
  {
    if FindNcci(c, ncci).Some? {
      var n := FindNcci(c, ncci).value;
      var d := Disconnecting(c, Nc(c.nccis, n).chan);
      PoliteNcci(d, n, B3DisconnectInd);
      PoliteNcci(Answer(ChangeNcci(d, n, B3DisconnectInd), DISCONNECT_B3, ncci), n, B3DisconnectResp);
    }
  }

  lemma PoliteMessage(c: Card, m: Message)
    requires Inv(c) && c.polite && Dispatched(c, m) && Polite(c, Recv(m))
    ensures DoMessage(c, m).polite
  {
    match m
    case DisconnectIndMsg(plci) => PoliteDisconnectInd(c, plci);
    case DisconnectConfMsg(plci) =>
    case ConnectIndMsg(plci, mem, calls, verdict) => PoliteConnectInd(c, plci, mem, calls, verdict);
    case ConnectConfMsg(plci, number, info) => PoliteConnectConf(c, plci, number, info);
    case ConnectActiveIndMsg(plci, memN) => PoliteConnectActiveInd(c, plci, memN);
    case _ => PoliteB3Message(c, m);
  }

  lemma StepPolite(c: Card, e: Event)
    requires Inv(c) && c.polite && May(c, e) && Polite(c, e)
    ensures Do(c, e).polite
  {
    match e
    case Call(k) => PoliteCommand(c, k);
    case Recv(m) => if Dispatched(c, m) { PoliteMessage(c, m); }
  }

  ghost predicate AllPolite(c: Card, es: seq<Event>)
    decreases |es|
  {
    es != [] ==> Polite(c, es[0]) && AllPolite(Do(c, es[0]), es[1..])
  }

  lemma {:induction false} PoliteRun(c: Card, es: seq<Event>)
    requires Inv(c) && c.polite && Possible(c, es) && AllPolite(c, es)
    ensures After(c, es).polite
    decreases |es|
  {
    if es != [] {
      StepPolite(c, es[0]);
      RunKeeps(c, [es[0]]);
      assert After(c, [es[0]]) == Do(c, es[0]);
      PoliteRun(Do(c, es[0]), es[1..]);
    }
  }

  // ----- histories -----

  /** Data are handed on only for an NCCI for which CONNECT_B3_ACTIVE_IND has arrived. */
  lemma SendsOnlyUp(c: Card, arg: nat, doack: bool, len: nat, a: SendAnswer)
    requires Inv(c) && |c.bchans| > 0
    ensures DoSendBuf(c, arg, doack, len, a).out != c.out ==>
      var b := c.bchans[Channel(c, arg)];
      b.nccip.Some? && b.nccip.value in c.nccis && c.nccis[b.nccip.value].up
  {
    var ch := Channel(c, arg);
    assert ChanOk(ch, Ch(c.bchans, ch), c.plcis, c.nccis, c.polite);
    if c.bchans[ch].nccip.Some? { assert NcciRests(Nc(c.nccis, c.bchans[ch].nccip.value)); }
  }

  /** Asking for a disconnect sets the flag of the channel and moves the NCCI. */
  lemma HangupMoves(c: Card, ch: nat, n: NcciPtr)
    requires Inv(c) && ch < |c.bchans| && c.bchans[ch].nccip == Some(n)
    ensures n in c.nccis && NcciRests(c.nccis[n])
    ensures var d := HangupNcci(c, ch, n);
      && d.nccis == c.nccis[n := NextN(c.nccis[n], B3DisconnectReq)] && d.plcis == c.plcis && d.list == c.list
      && Fits(d) && |d.bchans| == |c.bchans| && d.bchans[ch].disconnecting
  {
    assert ChanOk(ch, Ch(c.bchans, ch), c.plcis, c.nccis, c.polite) && NcciRests(Nc(c.nccis, n));
    Flagged(c, ch);
    MoveNcci(NextNumber(Disconnecting(c, ch)), n, B3DisconnectReq);
  }

  lemma Ignored(c: Card, n: NcciPtr, e: NcciEvent)
    requires n in c.nccis && NcciNext(c.nccis[n].state, e) == None
    ensures ChangeNcci(c, n, e) == c
  {
  }

  // ----- disconnecting an NCCI -----

  /** No message for NCCIs finds one that is still being set up. */
  lemma OutgoingUnfound(c: Card, ncci: dword, n: NcciPtr)
    requires Inv(c) && NcciAddress(c.contrnr, ncci) && n in c.nccis && c.nccis[n].state == NOutgoing
    ensures FindNcci(c, ncci) != Some(n)
  {
    if FindNcci(c, ncci).Some? { FoundNcci(c, ncci); }
  }

  /** A hangup on a channel with an NCCI sets the flag of the channel and asks for the disconnect; the NCCI
      then waits for the answer exactly if it was not still being set up. */
  lemma HangupWaitsIff(c: Card, arg: nat, n: NcciPtr)
    requires Inv(c) && |c.bchans| > 0
    requires var b := c.bchans[Channel(c, arg)]; !b.disconnecting && b.nccip == Some(n)
    ensures var d := DoHangup(c, arg);
      && n in c.nccis && n in d.nccis && d.bchans[Channel(c, arg)].disconnecting
      && d.out == c.out + [Send(DISCONNECT_B3, REQ, c.nccis[n].ncci, Some(c.msgid))]
      && (d.nccis[n].state == NDisconnecting <==> c.nccis[n].state != NOutgoing)
      && (c.nccis[n].state == NOutgoing ==> d.nccis == c.nccis && c.nccis[n].ncci < WORDS)
  {
    HangupMoves(c, Channel(c, arg), n);
    var x := c.nccis[n];
    assert c.nccis[n := x] == c.nccis;
    HangupAsks(c, Channel(c, arg), n);
  }

  lemma HangupAsks(c: Card, ch: nat, n: NcciPtr)
    ensures HangupNcci(c, ch, n).out == c.out + [Send(DISCONNECT_B3, REQ, Nc(c.nccis, n).ncci, Some(c.msgid))]
  {
    var d := NextNumber(UseN(Disconnecting(c, ch), n));
    var t := NcciNext(Nc(d.nccis, n).state, B3DisconnectReq);
    if t.Some? { assert !t.value.1; }
  }

  // ----- acknowledgements -----

  /** While the oldest unconfirmed block is near, a confirmation removes the entry of the very block, and
      reports the length stored for it if one was asked for.  near holds in every run in which, at each send
      for the NCCI, fewer than 65536 blocks have been sent since the oldest one that is unconfirmed. */
  lemma ConfirmsOwn(c: Card, ncci: dword, k: nat)
    requires Inv(c) && NcciAddress(c.contrnr, ncci) && FindNcci(c, ncci).Some?
    requires var x := Nc(c.nccis, FindNcci(c, ncci).value); x.near && Near(x.acks, x.sends) && k < |x.acks|
    ensures var n := FindNcci(c, ncci).value;
      var x := c.nccis[n];
      var d := DoDataB3Conf(c, ncci, Handle(x.acks[k].no));
      && d.nccis[n].acks == x.acks[..k] + x.acks[k + 1..]
      && d.out == (if x.acks[k].what >= 0 then c.out + [Stat(BSENT(x.acks[k].what), x.chan)] else c.out)
  {
    FoundNcci(c, ncci);
    var n := FindNcci(c, ncci).value;
    assert NcciRests(Nc(c.nccis, n));
    FindsOwn(c.nccis[n].acks, c.nccis[n].sends, k);
  }

  /** A send that fails leaves the handle counter alone, and the acknowledgement queue exactly if no older
      block waits under the same handle; none does while the oldest block is near. */
  lemma FailedSendRestores(x: Ncci, doack: bool, len: nat, a: SendAnswer)
    requires NcciRests(x) && x.near && a != Taken
    ensures var y := Sending(x, doack, len, a);
      && y.datahandle == x.datahandle && y.sends == x.sends
      && (y.acks == x.acks <==> a == NoAckMemory || Find(x.acks, x.datahandle) == |x.acks|)
      && (Near(x.acks, x.sends) ==> y.acks == x.acks)
  {
    TakenBack(x.acks, x.sends, if doack then len else -1);
    if Near(x.acks, x.sends) { NextUnused(x.acks, x.sends); }
  }
}
