/** The disconnecting flag of a channel over whole runs: once set it stays set, and every hangup on the channel
    does nothing, exactly until the PLCI of the channel is freed. */
module CallFlags {
  import opened Wire
  import opened Programs
  import opened CallControl
  import opened CallInvariant
  import opened CallSteps
  import opened CallRuns
  import opened CallEffects

  /** Channel ch is flagged and p is its PLCI. */
  predicate Stuck(plcis: map<PlciPtr, Plci>, bchans: seq<Bchan>, ch: nat, p: PlciPtr) {
    p in plcis && ch < |bchans| && bchans[ch].plcip == Some(p) && bchans[ch].disconnecting
  }

  /** p has been freed, and with it the channel. */
  predicate Freed(plcis: map<PlciPtr, Plci>, bchans: seq<Bchan>, ch: nat, p: PlciPtr) {
    p !in plcis && ch < |bchans| && bchans[ch].plcip == None && !bchans[ch].disconnecting
  }

  // ----- single changes -----

  /** A transition that frees nothing, or frees the PLCI of another channel. */
  lemma PlciSticks(c: Card, q: PlciPtr, e: PlciEvent, ch: nat, p: PlciPtr)
    requires Stuck(c.plcis, c.bchans, ch, p)
    requires Frees(Pl(c.plcis, q).state, e) ==> q != p && Pl(c.plcis, q).chan != ch
    ensures Stuck(ChangePlci(c, q, e).plcis, ChangePlci(c, q, e).bchans, ch, p)
  {
  }

  /** A transition of p that frees it. */
  lemma PlciEnded(c: Card, e: PlciEvent, ch: nat, p: PlciPtr)
    requires Stuck(c.plcis, c.bchans, ch, p) && p in c.list && c.plcis[p].chan == ch && Frees(c.plcis[p].state, e)
    ensures Freed(ChangePlci(c, p, e).plcis, ChangePlci(c, p, e).bchans, ch, p)
  {
  }

  lemma FreeNcciSticks(c: Card, n: NcciPtr, ch: nat, p: PlciPtr)
    requires Stuck(c.plcis, c.bchans, ch, p)
    ensures Stuck(FreeNcci(c, n).plcis, FreeNcci(c, n).bchans, ch, p)
  {
  }

  lemma NcciSticks(c: Card, n: NcciPtr, e: NcciEvent, ch: nat, p: PlciPtr)
    requires Stuck(c.plcis, c.bchans, ch, p)
    ensures Stuck(ChangeNcci(c, n, e).plcis, ChangeNcci(c, n, e).bchans, ch, p)
  {
    var x := Nc(c.nccis, n);
    var t := NcciNext(x.state, e);
    if t.Some? && t.value.1 { N0Sticks(WithN(c, n, NextN(x, e)), n, ch, p); }
  }

  lemma N0Sticks(c: Card, n: NcciPtr, ch: nat, p: PlciPtr)
    requires Stuck(c.plcis, c.bchans, ch, p)
    ensures Stuck(N0(c, n).plcis, N0(c, n).bchans, ch, p)
  {
    var x := Nc(c.nccis, n);
    var d := Numbered(UseP(UseN(c, n), x.plcip), DISCONNECT, REQ, Pl(c.plcis, x.plcip).plci);
    PlciSticks(d, x.plcip, DisconnectReq, ch, p);
    FreeNcciSticks(Emit(ChangePlci(d, x.plcip, DisconnectReq), Stat(BHUP, x.chan)), n, ch, p);
  }

  // ----- commands -----

  lemma CommandSticks(c: Card, k: Command, ch: nat, p: PlciPtr)
    requires Stuck(c.plcis, c.bchans, ch, p)
    ensures Stuck(DoCommand(c, k).plcis, DoCommand(c, k).bchans, ch, p)
  {
    match k
    case Dial(arg, mem) => DialSticks(c, arg, mem, ch, p);
    case Accept(arg) => AcceptSticks(c, arg, ch, p);
    case Hangup(arg) => HangupSticks(c, arg, ch, p);
    case SendBuf(arg, doack, len, a) =>
  }

  lemma DialSticks(c: Card, arg: nat, mem: Option<PlciPtr>, ch: nat, p: PlciPtr)
    requires Stuck(c.plcis, c.bchans, ch, p)
    ensures Stuck(DoDial(c, arg, mem).plcis, DoDial(c, arg, mem).bchans, ch, p)
  {
    var k := Channel(c, arg);
    if Ch(c.bchans, k).plcip.None? && mem.Some? {
      var d := NewPlci(NextNumber(c), k, mem.value);
      PlciSticks(WithP(d, mem.value, Pl(d.plcis, mem.value).(msgid := c.msgid)), mem.value, ConnectReq, ch, p);
    }
  }

  lemma AcceptSticks(c: Card, arg: nat, ch: nat, p: PlciPtr)
    requires Stuck(c.plcis, c.bchans, ch, p)
    ensures Stuck(DoAccept(c, arg).plcis, DoAccept(c, arg).bchans, ch, p)
  {
    var q := Ch(c.bchans, Channel(c, arg)).plcip;
    if q.Some? { PlciSticks(NextNumber(UseP(c, q.value)), q.value, ConnectResp, ch, p); }
  }

  lemma HangupSticks(c: Card, arg: nat, ch: nat, p: PlciPtr)
    requires Stuck(c.plcis, c.bchans, ch, p)
    ensures Stuck(DoHangup(c, arg).plcis, DoHangup(c, arg).bchans, ch, p)
  {
    var k := Channel(c, arg);
    var b := Ch(c.bchans, k);
    if b.disconnecting {
    } else if b.nccip.Some? {
      NcciSticks(NextNumber(UseN(Disconnecting(c, k), b.nccip.value)), b.nccip.value, B3DisconnectReq, ch, p);
    } else if b.plcip.Some? {
      PlciSticks(NextNumber(Disconnecting(UseP(c, b.plcip.value), k)), b.plcip.value, DisconnectReq, ch, p);
    }
  }

  lemma {:induction false} CallsStick(c: Card, calls: seq<Command>, ch: nat, p: PlciPtr)
    requires Stuck(c.plcis, c.bchans, ch, p)
    ensures Stuck(RunCalls(c, calls).plcis, RunCalls(c, calls).bchans, ch, p)
    decreases |calls|
  {
    if calls != [] {
      CommandSticks(c, calls[0], ch, p);
      CallsStick(DoCommand(c, calls[0]), calls[1..], ch, p);
    }
  }

  // ----- messages for PLCIs -----

  /** p is the only PLCI on channel ch. */
  lemma Alone(c: Card, q: PlciPtr, ch: nat, p: PlciPtr)
    requires Inv(c) && Stuck(c.plcis, c.bchans, ch, p) && q in c.list
    ensures q in c.plcis && c.plcis[q].chan < |c.bchans| && (q == p <==> c.plcis[q].chan == ch)
  {
    assert PlciOk(q, Pl(c.plcis, q), c.list, c.bchans) && ChanOk(ch, Ch(c.bchans, ch), c.plcis, c.nccis, c.polite);
  }

  /** Only the next two messages free a PLCI. */
  lemma DisconnectIndEnds(c: Card, plci: dword, ch: nat, p: PlciPtr)
    requires Inv(c) && plci != 0 && Stuck(c.plcis, c.bchans, ch, p)
    ensures var d := DoDisconnectInd(c, plci); Stuck(d.plcis, d.bchans, ch, p) || Freed(d.plcis, d.bchans, ch, p)
  {
    if FindPlci(c, plci).Some? {
      FoundPlci(c, plci);
      var q := FindPlci(c, plci).value;
      Alone(c, q, ch, p);
      var d := Disconnecting(c, c.plcis[q].chan);
      Flagged(c, c.plcis[q].chan);
      MovePlci(d, q, DisconnectInd);
      var e := Answer(ChangePlci(d, q, DisconnectInd), DISCONNECT, plci);
      DisconnectedEnds(e, q, ch, p);
    }
  }

  lemma DisconnectedEnds(e: Card, q: PlciPtr, ch: nat, p: PlciPtr)
    requires Stuck(e.plcis, e.bchans, ch, p) && q in e.plcis && q in e.list && e.plcis[q].state == PDisconnected
    requires q == p <==> e.plcis[q].chan == ch
    ensures var d := ChangePlci(e, q, DisconnectResp);
      Stuck(d.plcis, d.bchans, ch, p) || Freed(d.plcis, d.bchans, ch, p)
  {
    if q == p { PlciEnded(e, DisconnectResp, ch, p); } else { PlciSticks(e, q, DisconnectResp, ch, p); }
  }

  lemma ConnectConfEnds(c: Card, plci: dword, number: word, info: word, ch: nat, p: PlciPtr)
    requires Inv(c) && Stuck(c.plcis, c.bchans, ch, p)
    ensures var d := DoConnectConf(c, plci, number, info);
      Stuck(d.plcis, d.bchans, ch, p) || Freed(d.plcis, d.bchans, ch, p)
  {
    if PlciByMsgid(c, c.list, number).Some? {
      PlciByMsgidIs(c, c.list, number);
      var q := PlciByMsgid(c, c.list, number).value;
      Alone(c, q, ch, p);
      var d, e := WithP(c, q, c.plcis[q].(plci := plci)), if info != 0 then ConnectConfError else ConnectConfOk;
      if q == p && Frees(d.plcis[p].state, e) { PlciEnded(d, e, ch, p); } else { PlciSticks(d, q, e, ch, p); }
    }
  }

  lemma ConnectIndSticks(c: Card, plci: dword, mem: Option<PlciPtr>, calls: seq<Command>, verdict: int,
      ch: nat, p: PlciPtr)
    requires Stuck(c.plcis, c.bchans, ch, p)
    ensures var d := DoConnectInd(c, plci, mem, calls, verdict); Stuck(d.plcis, d.bchans, ch, p)
  {
    var k := FreeChannel(c.bchans, 0);
    if k < |c.bchans| && mem.Some? {
      RingingSticks(Chosen(c, k), k, mem.value, plci, ch, p);
      var d := Emit(Ringing(Chosen(c, k), k, mem.value, plci), Stat(ICALL, k));
      CallsStick(d, calls, ch, p);
      JudgeSticks(RunCalls(d, calls), mem.value, plci, verdict, ch, p);
    }
  }

  lemma RingingSticks(c: Card, k: nat, q: PlciPtr, plci: dword, ch: nat, p: PlciPtr)
    requires Stuck(c.plcis, c.bchans, ch, p) && k != ch
    ensures Stuck(Ringing(c, k, q, plci).plcis, Ringing(c, k, q, plci).bchans, ch, p)
  {
    var d := NewPlci(c, k, q);
    var e := WithB(d, k, Ch(d.bchans, k).(incoming := true));
    PlciSticks(WithP(e, q, Pl(e.plcis, q).(plci := plci)), q, ConnectInd, ch, p);
  }

  lemma JudgeSticks(c: Card, q: PlciPtr, plci: dword, verdict: int, ch: nat, p: PlciPtr)
    requires Stuck(c.plcis, c.bchans, ch, p)
    ensures Stuck(Judge(c, q, plci, verdict).plcis, Judge(c, q, plci, verdict).bchans, ch, p)
  {
    PlciSticks(Turned(c, plci, verdict), q, ConnectReject, ch, p);
  }

  lemma NewB3Sticks(c: Card, q: PlciPtr, n: NcciPtr, plci: dword, ch: nat, p: PlciPtr)
    requires Stuck(c.plcis, c.bchans, ch, p)
    ensures Stuck(NewB3(c, q, n, plci).plcis, NewB3(c, q, n, plci).bchans, ch, p)
  {
  }

  lemma ActiveIndSticks(c: Card, plci: dword, mem: Option<NcciPtr>, ch: nat, p: PlciPtr)
    requires Stuck(c.plcis, c.bchans, ch, p)
    ensures Stuck(DoConnectActiveInd(c, plci, mem).plcis, DoConnectActiveInd(c, plci, mem).bchans, ch, p)
  {
    if FindPlci(c, plci).Some? {
      var q := FindPlci(c, plci).value;
      if Ch(c.bchans, Pl(c.plcis, q).chan).incoming {
        PlciSticks(Answer(c, CONNECT_ACTIVE, plci), q, ConnectActiveInd, ch, p);
      } else if mem.Some? {
        var d := NewB3(c, q, mem.value, plci);
        NewB3Sticks(c, q, mem.value, plci, ch, p);
        PlciSticks(d, q, ConnectActiveInd, ch, p);
        NcciSticks(ChangePlci(d, q, ConnectActiveInd), mem.value, B3Req, ch, p);
      }
    }
  }

  // ----- messages for NCCIs -----

  lemma B3MessageSticks(c: Card, m: Message, ch: nat, p: PlciPtr)
    requires Stuck(c.plcis, c.bchans, ch, p) && !ForPlci(m)
    ensures Stuck(DoMessage(c, m).plcis, DoMessage(c, m).bchans, ch, p)
  {
    match m
    case B3ActiveIndMsg(ncci) => B3ActiveIndSticks(c, ncci, ch, p);
    case B3IndMsg(ncci, memN) => B3IndSticks(c, ncci, memN, ch, p);
    case B3ConfMsg(ncci, number, info) =>
      if FindNcciByMsgid(c, ncci, number).Some? {
        var n := FindNcciByMsgid(c, ncci, number).value;
        var e := if info != 0 then B3ConfError else B3ConfOk;
        NcciSticks(WithN(c, n, Nc(c.nccis, n).(ncci := ncci)), n, e, ch, p);
      }
    case B3T90ActiveIndMsg(ncci) =>
    case DataB3ConfMsg(ncci, handle) =>
    case B3DisconnectIndMsg(ncci) => B3DisconnectIndSticks(c, ncci, ch, p);
    case B3DisconnectConfMsg(ncci, info) =>
      if FindNcci(c, ncci).Some? { NcciSticks(c, FindNcci(c, ncci).value, B3DisconnectConfError, ch, p); }
    case ResetB3IndMsg(ncci) =>
      if FindNcci(c, ncci).Some? { NcciSticks(c, FindNcci(c, ncci).value, ResetInd, ch, p); }
  }

  lemma B3ActiveIndSticks(c: Card, ncci: dword, ch: nat, p: PlciPtr)
    requires Stuck(c.plcis, c.bchans, ch, p)
    ensures Stuck(DoB3ActiveInd(c, ncci).plcis, DoB3ActiveInd(c, ncci).bchans, ch, p)
  {
    if FindNcci(c, ncci).Some? {
      var n, d := FindNcci(c, ncci).value, Answer(c, CONNECT_B3_ACTIVE, ncci);
      NcciSticks(WithN(d, n, Nc(d.nccis, n).(up := true)), n, B3ActiveInd, ch, p);
    }
  }

  lemma B3IndSticks(c: Card, ncci: dword, mem: Option<NcciPtr>, ch: nat, p: PlciPtr)
    requires Stuck(c.plcis, c.bchans, ch, p)
    ensures Stuck(DoB3Ind(c, ncci, mem).plcis, DoB3Ind(c, ncci, mem).bchans, ch, p)
  {
    if FindPlciOf(c, ncci).Some? && mem.Some? {
      var n, d := mem.value, NewNcci(c, FindPlciOf(c, ncci).value, mem.value, ncci);
      NcciSticks(d, n, B3Ind, ch, p);
      NcciSticks(Numbered(ChangeNcci(d, n, B3Ind), CONNECT_B3, RESP, ncci), n, B3Resp, ch, p);
    }
  }

  lemma B3DisconnectIndSticks(c: Card, ncci: dword, ch: nat, p: PlciPtr)
    requires Stuck(c.plcis, c.bchans, ch, p)
    ensures Stuck(DoB3DisconnectInd(c, ncci).plcis, DoB3DisconnectInd(c, ncci).bchans, ch, p)
  {
    if FindNcci(c, ncci).Some? {
      var n := FindNcci(c, ncci).value;
      var d := Disconnecting(c, Nc(c.nccis, n).chan);
      NcciSticks(d, n, B3DisconnectInd, ch, p);
      NcciSticks(Answer(ChangeNcci(d, n, B3DisconnectInd), DISCONNECT_B3, ncci), n, B3DisconnectResp, ch, p);
    }
  }

  // ----- steps and runs -----

  lemma MessageSticks(c: Card, m: Message, ch: nat, p: PlciPtr)
    requires Inv(c) && Dispatched(c, m) && Stuck(c.plcis, c.bchans, ch, p)
    ensures var d := DoMessage(c, m); Stuck(d.plcis, d.bchans, ch, p) || Freed(d.plcis, d.bchans, ch, p)
  {
    match m
    case DisconnectIndMsg(plci) => DisconnectIndEnds(c, plci, ch, p);
    case DisconnectConfMsg(plci) =>
    case ConnectIndMsg(plci, mem, calls, verdict) => ConnectIndSticks(c, plci, mem, calls, verdict, ch, p);
    case ConnectConfMsg(plci, number, info) => ConnectConfEnds(c, plci, number, info, ch, p);
    case ConnectActiveIndMsg(plci, memN) => ActiveIndSticks(c, plci, memN, ch, p);
    case _ => B3MessageSticks(c, m, ch, p);
  }

  /** Every step leaves the channel flagged if it leaves its PLCI allocated, and clears the flag if it frees
      it. */
  lemma StepSticks(c: Card, e: Event, ch: nat, p: PlciPtr)
    requires Inv(c) && Stuck(c.plcis, c.bchans, ch, p)
    ensures var d := Do(c, e);
      if p in d.plcis then Stuck(d.plcis, d.bchans, ch, p) else Freed(d.plcis, d.bchans, ch, p)
  {
    match e
    case Call(k) => CommandSticks(c, k, ch, p);
    case Recv(m) => if Dispatched(c, m) { MessageSticks(c, m, ch, p); }
  }

  /** p is allocated before and after every step of the run: it is the same PLCI all along. */
  ghost predicate Lives(c: Card, es: seq<Event>, p: PlciPtr)
    decreases |es|
  {
    p in c.plcis && (es != [] ==> Lives(Do(c, es[0]), es[1..], p))
  }

  /** Channel ch is flagged before and after every step of the run. */
  ghost predicate StaysFlagged(c: Card, es: seq<Event>, ch: nat)
    decreases |es|
  {
    Ch(c.bchans, ch).disconnecting && (es != [] ==> StaysFlagged(Do(c, es[0]), es[1..], ch))
  }

  /** The flag stays exactly as long as the PLCI. */
  lemma {:induction false} FlagStaysIff(c: Card, es: seq<Event>, ch: nat, p: PlciPtr)
    requires Inv(c) && Possible(c, es) && Stuck(c.plcis, c.bchans, ch, p)
    ensures StaysFlagged(c, es, ch) <==> Lives(c, es, p)
    ensures Lives(c, es, p) ==> Stuck(After(c, es).plcis, After(c, es).bchans, ch, p)
    decreases |es|
  {
    if es != [] {
      StepSticks(c, es[0], ch, p);
      var d := Do(c, es[0]);
      if p in d.plcis {
        match es[0] {
          case Recv(m) => KeepReceive(c, m);
          case Call(k) => KeepCommand(c, k);
        }
        FlagStaysIff(d, es[1..], ch, p);
      }
    }
  }

  lemma FlaggedIgnores(c: Card, arg: nat)
    requires Ch(c.bchans, Channel(c, arg)).disconnecting
    ensures DoHangup(c, arg) == c
  {
  }

  lemma HangupFlags(c: Card, arg: nat, p: PlciPtr)
    requires Inv(c) && |c.bchans| > 0
    requires var b := c.bchans[Channel(c, arg)]; !b.disconnecting && b.plcip == Some(p)
    requires c.bchans[Channel(c, arg)].nccip.Some? || Pl(c.plcis, p).state != POutgoing
    ensures Stuck(DoHangup(c, arg).plcis, DoHangup(c, arg).bchans, Channel(c, arg), p)
  {
    var ch := Channel(c, arg);
    assert ChanOk(ch, Ch(c.bchans, ch), c.plcis, c.nccis, c.polite);
    if c.bchans[ch].nccip.Some? {
      HangupMoves(c, ch, c.bchans[ch].nccip.value);
      KeepHangup(c, arg);
    } else {
      HangupPlciEffect(c, arg, p);
    }
  }

  /** After a hangup on a channel whose call has an NCCI, or is incoming, or has an address, so that the hangup
      does something; whatever happens next, the refusal of the disconnect included:
      the channel stays flagged exactly as long as its PLCI is not freed, and until then no further hangup on
      it does anything. */
  lemma HungUpOnce(c: Card, arg: nat, p: PlciPtr, es: seq<Event>, later: nat)
    requires Inv(c) && |c.bchans| > 0 && Possible(DoHangup(c, arg), es)
    requires var b := c.bchans[Channel(c, arg)]; !b.disconnecting && b.plcip == Some(p)
    requires c.bchans[Channel(c, arg)].nccip.Some? || Pl(c.plcis, p).state != POutgoing
    ensures var d := DoHangup(c, arg);
      && (StaysFlagged(d, es, Channel(c, arg)) <==> Lives(d, es, p))
      && (Lives(d, es, p) && Channel(After(d, es), later) == Channel(c, arg) ==>
            DoHangup(After(d, es), later) == After(d, es))
  {
    var ch := Channel(c, arg);
    var d := DoHangup(c, arg);
    HangupFlags(c, arg, p);
    KeepHangup(c, arg);
    FlagStaysIff(d, es, ch, p);
    if Lives(d, es, p) && Channel(After(d, es), later) == ch { FlaggedIgnores(After(d, es), later); }
  }
}
