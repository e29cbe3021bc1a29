/** The state history of an NCCI over whole runs: while a disconnect is pending, whatever else happens, the
    state to go back to is the one in which the disconnect was asked for. */
module CallHistory {
  import opened Wire
  import opened Programs
  import opened AckQueue
  import opened CallControl
  import opened CallInvariant
  import opened CallSteps
  import opened CallRuns

  /** n waits for the answer to a disconnect, and would go back to s. */
  predicate Pending(nccis: map<NcciPtr, Ncci>, n: NcciPtr, s: NcciState) {
    n in nccis && nccis[n].state == NDisconnecting && nccis[n].oldstate == s
  }

  // ----- single changes -----

  lemma PlciOnly(c: Card, p: PlciPtr, e: PlciEvent)
    ensures ChangePlci(c, p, e).nccis == c.nccis
  {
  }

  /** What happens to another NCCI does not concern n. */
  lemma OtherNcci(c: Card, m: NcciPtr, e: NcciEvent, n: NcciPtr, s: NcciState)
    requires Pending(c.nccis, n, s) && m != n
    ensures Pending(ChangeNcci(c, m, e).nccis, n, s)
  {
    var x := Nc(c.nccis, m);
    var t := NcciNext(x.state, e);
    if t.Some? && t.value.1 {
      OtherN0(WithN(c, m, NextN(x, e)), m, n, s);
    }
  }

  lemma OtherN0(c: Card, m: NcciPtr, n: NcciPtr, s: NcciState)
    requires Pending(c.nccis, n, s) && m != n
    ensures Pending(N0(c, m).nccis, n, s)
  {
    var x := Nc(c.nccis, m);
    PlciOnly(Numbered(UseP(UseN(c, m), x.plcip), DISCONNECT, REQ, Pl(c.plcis, x.plcip).plci), x.plcip, DisconnectReq);
  }

  /** Only two events mean anything to an NCCI that waits. */
  lemma AnyNcci(c: Card, m: NcciPtr, e: NcciEvent, n: NcciPtr, s: NcciState)
    requires Pending(c.nccis, n, s) && e != B3DisconnectInd && e != B3DisconnectConfError
    ensures Pending(ChangeNcci(c, m, e).nccis, n, s)
  {
    if m == n { Ignored(c, n, e); } else { OtherNcci(c, m, e, n, s); }
  }

  // ----- commands -----

  lemma CommandKeeps(c: Card, k: Command, n: NcciPtr, s: NcciState)
    requires Pending(c.nccis, n, s)
    ensures Pending(DoCommand(c, k).nccis, n, s)
  {
    match k
    case Dial(arg, mem) => DialKeeps(c, arg, mem);
    case Accept(arg) => AcceptKeeps(c, arg);
    case Hangup(arg) => HangupKeeps(c, arg, n, s);
    case SendBuf(arg, doack, len, a) => SendKeeps(c, arg, doack, len, a, n, s);
  }

  lemma DialKeeps(c: Card, arg: nat, mem: Option<PlciPtr>)
    ensures DoDial(c, arg, mem).nccis == c.nccis
  {
    var ch := Channel(c, arg);
    if Ch(c.bchans, ch).plcip.None? && mem.Some? {
      var p := mem.value;
      var d := NewPlci(NextNumber(c), ch, p);
      PlciOnly(WithP(d, p, Pl(d.plcis, p).(msgid := c.msgid)), p, ConnectReq);
    }
  }

  lemma AcceptKeeps(c: Card, arg: nat)
    ensures DoAccept(c, arg).nccis == c.nccis
  {
    var q := Ch(c.bchans, Channel(c, arg)).plcip;
    if q.Some? { PlciOnly(NextNumber(UseP(c, q.value)), q.value, ConnectResp); }
  }

  lemma HangupKeeps(c: Card, arg: nat, n: NcciPtr, s: NcciState)
    requires Pending(c.nccis, n, s)
    ensures Pending(DoHangup(c, arg).nccis, n, s)
  {
    var ch := Channel(c, arg);
    var b := Ch(c.bchans, ch);
    if b.disconnecting {
    } else if b.nccip.Some? {
      AnyNcci(NextNumber(UseN(Disconnecting(c, ch), b.nccip.value)), b.nccip.value, B3DisconnectReq, n, s);
    } else if b.plcip.Some? {
      HangupPlciKeeps(c, ch, b.plcip.value);
    }
  }

  lemma HangupPlciKeeps(c: Card, ch: nat, p: PlciPtr)
    ensures HangupPlci(c, ch, p).nccis == c.nccis
  {
    PlciOnly(NextNumber(Disconnecting(UseP(c, p), ch)), p, DisconnectReq);
  }

  lemma SendKeeps(c: Card, arg: nat, doack: bool, len: nat, a: SendAnswer, n: NcciPtr, s: NcciState)
    requires Pending(c.nccis, n, s)
    ensures Pending(DoSendBuf(c, arg, doack, len, a).nccis, n, s)
  {
  }

  lemma {:induction false} CallsKeep(c: Card, calls: seq<Command>, n: NcciPtr, s: NcciState)
    requires Pending(c.nccis, n, s)
    ensures Pending(RunCalls(c, calls).nccis, n, s)
    decreases |calls|
  {
    if calls != [] {
      CommandKeeps(c, calls[0], n, s);
      CallsKeep(DoCommand(c, calls[0]), calls[1..], n, s);
    }
  }

  // ----- messages for PLCIs -----

  lemma DisconnectIndKeeps(c: Card, plci: dword)
    ensures DoDisconnectInd(c, plci).nccis == c.nccis
  {
    if FindPlci(c, plci).Some? {
      var p := FindPlci(c, plci).value;
      var d := Disconnecting(c, Pl(c.plcis, p).chan);
      PlciOnly(d, p, DisconnectInd);
      PlciOnly(Answer(ChangePlci(d, p, DisconnectInd), DISCONNECT, plci), p, DisconnectResp);
    }
  }

  lemma ConnectIndKeeps(c: Card, plci: dword, mem: Option<PlciPtr>, calls: seq<Command>, verdict: int,
      n: NcciPtr, s: NcciState)
    requires Pending(c.nccis, n, s)
    ensures Pending(DoConnectInd(c, plci, mem, calls, verdict).nccis, n, s)
  {
    var ch := FreeChannel(c.bchans, 0);
    if ch < |c.bchans| && mem.Some? {
      var p := mem.value;
      RingingKeeps(Chosen(c, ch), ch, p, plci);
      var d := Emit(Ringing(Chosen(c, ch), ch, p, plci), Stat(ICALL, ch));
      CallsKeep(d, calls, n, s);
      JudgeKeeps(RunCalls(d, calls), p, plci, verdict);
    }
  }

  lemma RingingKeeps(c: Card, ch: nat, p: PlciPtr, plci: dword)
    ensures Ringing(c, ch, p, plci).nccis == c.nccis
  {
    var d := NewPlci(c, ch, p);
    var e := WithB(d, ch, Ch(d.bchans, ch).(incoming := true));
    PlciOnly(WithP(e, p, Pl(e.plcis, p).(plci := plci)), p, ConnectInd);
  }

  lemma JudgeKeeps(c: Card, p: PlciPtr, plci: dword, verdict: int)
    ensures Judge(c, p, plci, verdict).nccis == c.nccis
  {
    PlciOnly(Turned(c, plci, verdict), p, ConnectReject);
  }

  lemma ConnectConfKeeps(c: Card, plci: dword, number: word, info: word)
    ensures DoConnectConf(c, plci, number, info).nccis == c.nccis
  {
    if PlciByMsgid(c, c.list, number).Some? {
      var p := PlciByMsgid(c, c.list, number).value;
      PlciOnly(WithP(c, p, Pl(c.plcis, p).(plci := plci)), p, if info != 0 then ConnectConfError else ConnectConfOk);
    }
  }

  lemma NewB3Keeps(c: Card, p: PlciPtr, m: NcciPtr, plci: dword, n: NcciPtr, s: NcciState)
    requires Pending(c.nccis, n, s) && m !in c.nccis
    ensures Pending(NewB3(c, p, m, plci).nccis, n, s)
  {
  }

  lemma ActiveIndKeeps(c: Card, plci: dword, mem: Option<NcciPtr>, n: NcciPtr, s: NcciState)
    requires Pending(c.nccis, n, s) && (mem.Some? ==> mem.value !in c.nccis)
    ensures Pending(DoConnectActiveInd(c, plci, mem).nccis, n, s)
  {
    if FindPlci(c, plci).Some? {
      var p := FindPlci(c, plci).value;
      if Ch(c.bchans, Pl(c.plcis, p).chan).incoming {
        PlciOnly(Answer(c, CONNECT_ACTIVE, plci), p, ConnectActiveInd);
      } else if mem.Some? {
        var d := NewB3(c, p, mem.value, plci);
        NewB3Keeps(c, p, mem.value, plci, n, s);
        PlciOnly(d, p, ConnectActiveInd);
        AnyNcci(ChangePlci(d, p, ConnectActiveInd), mem.value, B3Req, n, s);
      }
    }
  }

  // ----- messages for NCCIs -----

  lemma B3ActiveIndKeeps(c: Card, ncci: dword, n: NcciPtr, s: NcciState)
    requires Pending(c.nccis, n, s)
    ensures Pending(DoB3ActiveInd(c, ncci).nccis, n, s)
  {
    if FindNcci(c, ncci).Some? {
      var m, d := FindNcci(c, ncci).value, Answer(c, CONNECT_B3_ACTIVE, ncci);
      AnyNcci(WithN(d, m, Nc(d.nccis, m).(up := true)), m, B3ActiveInd, n, s);
    }
  }

  lemma NewKeeps(c: Card, p: PlciPtr, m: NcciPtr, ncci: dword, n: NcciPtr, s: NcciState)
    requires Pending(c.nccis, n, s) && m !in c.nccis
    ensures Pending(NewNcci(c, p, m, ncci).nccis, n, s)
  {
  }

  lemma B3IndKeeps(c: Card, ncci: dword, mem: Option<NcciPtr>, n: NcciPtr, s: NcciState)
    requires Pending(c.nccis, n, s) && (mem.Some? ==> mem.value !in c.nccis)
    ensures Pending(DoB3Ind(c, ncci, mem).nccis, n, s)
  {
    if FindPlciOf(c, ncci).Some? && mem.Some? {
      var d := NewNcci(c, FindPlciOf(c, ncci).value, mem.value, ncci);
      NewKeeps(c, FindPlciOf(c, ncci).value, mem.value, ncci, n, s);
      AnyNcci(d, mem.value, B3Ind, n, s);
      AnyNcci(Numbered(ChangeNcci(d, mem.value, B3Ind), CONNECT_B3, RESP, ncci), mem.value, B3Resp, n, s);
    }
  }

  lemma B3ConfKeeps(c: Card, ncci: dword, number: word, info: word, n: NcciPtr, s: NcciState)
    requires Pending(c.nccis, n, s)
    ensures Pending(DoB3Conf(c, ncci, number, info).nccis, n, s)
  {
    if FindNcciByMsgid(c, ncci, number).Some? {
      var m := FindNcciByMsgid(c, ncci, number).value;
      AnyNcci(WithN(c, m, Nc(c.nccis, m).(ncci := ncci)), m, if info != 0 then B3ConfError else B3ConfOk, n, s);
    }
  }

  lemma DataB3ConfKeeps(c: Card, ncci: dword, handle: word, n: NcciPtr, s: NcciState)
    requires Pending(c.nccis, n, s)
    ensures Pending(DoDataB3Conf(c, ncci, handle).nccis, n, s)
  {
  }

  lemma OtherDisconnectKeeps(c: Card, ncci: dword, m: NcciPtr, n: NcciPtr, s: NcciState)
    requires Pending(c.nccis, n, s) && FindNcci(c, ncci) == Some(m) && m != n
    ensures Pending(DoB3DisconnectInd(c, ncci).nccis, n, s)
  {
    var d := Disconnecting(c, Nc(c.nccis, m).chan);
    OtherNcci(d, m, B3DisconnectInd, n, s);
    OtherNcci(Answer(ChangeNcci(d, m, B3DisconnectInd), DISCONNECT_B3, ncci), m, B3DisconnectResp, n, s);
  }

  // ----- steps and runs -----

  /** The messages that end the wait of n: its disconnect indication, and a confirmation that refuses. */
  predicate Ends(c: Card, e: Event, n: NcciPtr) {
    && e.Recv? && Dispatched(c, e.m)
    && ((e.m.B3DisconnectIndMsg? && FindNcci(c, e.m.ncci) == Some(n))
        || (e.m.B3DisconnectConfMsg? && e.m.info != 0 && FindNcci(c, e.m.ncci) == Some(n)))
  }

  lemma B3MessageKeeps(c: Card, m: Message, n: NcciPtr, s: NcciState)
    requires Dispatched(c, m) && MayReceive(c, m) && Pending(c.nccis, n, s) && !Ends(c, Recv(m), n) && !ForPlci(m)
    ensures Pending(DoMessage(c, m).nccis, n, s)
  {
    match m
    case B3ActiveIndMsg(ncci) => B3ActiveIndKeeps(c, ncci, n, s);
    case B3IndMsg(ncci, memN) => B3IndKeeps(c, ncci, memN, n, s);
    case B3ConfMsg(ncci, number, info) => B3ConfKeeps(c, ncci, number, info, n, s);
    case B3T90ActiveIndMsg(ncci) =>
    case DataB3ConfMsg(ncci, handle) => DataB3ConfKeeps(c, ncci, handle, n, s);
    case B3DisconnectIndMsg(ncci) =>
      if FindNcci(c, ncci).Some? { OtherDisconnectKeeps(c, ncci, FindNcci(c, ncci).value, n, s); }
    case B3DisconnectConfMsg(ncci, info) =>
      if FindNcci(c, ncci).Some? && info != 0 {
        OtherNcci(c, FindNcci(c, ncci).value, B3DisconnectConfError, n, s);
      }
    case ResetB3IndMsg(ncci) =>
      if FindNcci(c, ncci).Some? { AnyNcci(c, FindNcci(c, ncci).value, ResetInd, n, s); }
  }

  lemma MessageKeeps(c: Card, m: Message, n: NcciPtr, s: NcciState)
    requires Dispatched(c, m) && MayReceive(c, m) && Pending(c.nccis, n, s) && !Ends(c, Recv(m), n)
    ensures Pending(DoMessage(c, m).nccis, n, s)
  {
    match m
    case DisconnectIndMsg(plci) => DisconnectIndKeeps(c, plci);
    case DisconnectConfMsg(plci) =>
    case ConnectIndMsg(plci, mem, calls, verdict) => ConnectIndKeeps(c, plci, mem, calls, verdict, n, s);
    case ConnectConfMsg(plci, number, info) => ConnectConfKeeps(c, plci, number, info);
    case ConnectActiveIndMsg(plci, memN) => ActiveIndKeeps(c, plci, memN, n, s);
    case _ => B3MessageKeeps(c, m, n, s);
  }

  lemma StepKeepsPending(c: Card, e: Event, n: NcciPtr, s: NcciState)
    requires May(c, e) && Pending(c.nccis, n, s) && !Ends(c, e, n)
    ensures Pending(Do(c, e).nccis, n, s)
  {
    match e
    case Call(k) => CommandKeeps(c, k, n, s);
    case Recv(m) => if Dispatched(c, m) { MessageKeeps(c, m, n, s); }
  }

  /** A step that does end the wait leaves n freed, or back in the state kept for it. */
  lemma StepEndsPending(c: Card, e: Event, n: NcciPtr, s: NcciState)
    requires Inv(c) && May(c, e) && Pending(c.nccis, n, s) && Ends(c, e, n)
    ensures e.m.B3DisconnectIndMsg? ==> n !in Do(c, e).nccis
    ensures e.m.B3DisconnectConfMsg? ==> n in Do(c, e).nccis && Do(c, e).nccis[n].state == s
  {
    if e.m.B3DisconnectConfMsg? {
      assert NcciRests(Nc(c.nccis, n));
      MoveNcci(c, n, B3DisconnectConfError);
    } else {
      KeepB3DisconnectInd(c, e.m.ncci);
    }
  }

  /** No step of the run ends the wait of n. */
  ghost predicate NoneEnds(c: Card, es: seq<Event>, n: NcciPtr)
    decreases |es|
  {
    es != [] ==> !Ends(c, es[0], n) && NoneEnds(Do(c, es[0]), es[1..], n)
  }

  /** n is allocated and waits after every step of the run: it is the same NCCI all along. */
  ghost predicate Waits(c: Card, es: seq<Event>, n: NcciPtr)
    decreases |es|
  {
    && n in c.nccis && c.nccis[n].state == NDisconnecting
    && (es != [] ==> Waits(Do(c, es[0]), es[1..], n))
  }

  lemma OneStep(c: Card, e: Event)
    requires Inv(c) && May(c, e)
    ensures Inv(Do(c, e))
  {
    match e
    case Recv(m) => KeepReceive(c, m);
    case Call(k) => KeepCommand(c, k);
  }

  /** Whatever else happens, n keeps waiting, and nothing changes the state it would go back to. */
  lemma {:induction false} RunKeepsPending(c: Card, es: seq<Event>, n: NcciPtr, s: NcciState)
    requires Possible(c, es) && Pending(c.nccis, n, s) && NoneEnds(c, es, n)
    ensures Pending(After(c, es).nccis, n, s)
    decreases |es|
  {
    if es != [] {
      StepKeepsPending(c, es[0], n, s);
      RunKeepsPending(Do(c, es[0]), es[1..], n, s);
    }
  }

  /** n is still the NCCI that waited exactly if none of these two messages has come for it. */
  lemma {:induction false} WaitsIff(c: Card, es: seq<Event>, n: NcciPtr, s: NcciState)
    requires Inv(c) && Possible(c, es) && Pending(c.nccis, n, s)
    ensures Waits(c, es, n) <==> NoneEnds(c, es, n)
    decreases |es|
  {
    if es != [] {
      OneStep(c, es[0]);
      if Ends(c, es[0], n) {
        assert NcciRests(Nc(c.nccis, n));
        StepEndsPending(c, es[0], n, s);
      } else {
        StepKeepsPending(c, es[0], n, s);
        WaitsIff(Do(c, es[0]), es[1..], n, s);
      }
    }
  }

  /** Asking for a disconnect starts the wait. */
  lemma HangupPends(c: Card, arg: nat, n: NcciPtr)
    requires Inv(c) && |c.bchans| > 0 && n in c.nccis
    requires var b := c.bchans[Channel(c, arg)]; !b.disconnecting && b.nccip == Some(n)
    requires c.nccis[n].state == NAllocated || c.nccis[n].state == NActive
    ensures Inv(DoHangup(c, arg)) && Pending(DoHangup(c, arg).nccis, n, c.nccis[n].state)
  {
    HangupMoves(c, Channel(c, arg), n);
    KeepHangup(c, arg);
  }

  /** A disconnect that is refused, however much later and whatever has happened in between, restores exactly
      the state in which it was asked for. */
  lemma RefusalRestores(c: Card, arg: nat, n: NcciPtr, es: seq<Event>, ncci: dword, info: word)
    requires Inv(c) && |c.bchans| > 0 && n in c.nccis
    requires var b := c.bchans[Channel(c, arg)]; !b.disconnecting && b.nccip == Some(n)
    requires c.nccis[n].state == NAllocated || c.nccis[n].state == NActive
    requires Possible(DoHangup(c, arg), es) && NoneEnds(DoHangup(c, arg), es, n)
    requires info != 0 && Ends(After(DoHangup(c, arg), es), Recv(B3DisconnectConfMsg(ncci, info)), n)
    ensures var e := Do(After(DoHangup(c, arg), es), Recv(B3DisconnectConfMsg(ncci, info)));
      n in e.nccis && e.nccis[n].state == c.nccis[n].state
  {
    HangupPends(c, arg, n);
    RunRefused(DoHangup(c, arg), es, n, c.nccis[n].state, ncci, info);
  }

  lemma RunRefused(c: Card, es: seq<Event>, n: NcciPtr, s: NcciState, ncci: dword, info: word)
    requires Inv(c) && Pending(c.nccis, n, s) && Possible(c, es) && NoneEnds(c, es, n)
    requires info != 0 && Ends(After(c, es), Recv(B3DisconnectConfMsg(ncci, info)), n)
    ensures var e := Do(After(c, es), Recv(B3DisconnectConfMsg(ncci, info))); n in e.nccis && e.nccis[n].state == s
  {
    RunKeepsPending(c, es, n, s);
    RunKeeps(c, es);
    StepEndsPending(After(c, es), Recv(B3DisconnectConfMsg(ncci, info)), n, s);
  }
}
