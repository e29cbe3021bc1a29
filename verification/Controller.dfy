/** struct capidrv_contr of capidrv.c: the list walks, table scans and handlers behind CallControl.  What the
    rest of the kernel calls (the constructor, CapidrvRecvMessage, CapidrvCommand, IfSendbuf, Delcontr) keeps
    Valid; the other methods are the steps these are made of. */
module Controllers {
  import opened Wire
  import opened Programs
  import opened AckQueue
  import opened CallControl
  import opened CallTables
  import opened CallRuns
  import opened CallTeardown

  class Controller {
    const contrnr: nat
    var msgid: word
    var plciList: seq<PlciPtr>
    /** The objects that are allocated. */
    var plcis: map<PlciPtr, Plci>
    var nccis: map<NcciPtr, Ncci>
    var bchans: seq<Bchan>
    ghost var out: seq<Out>
    ghost var bad: bool
    ghost var polite: bool

    ghost function State(): Card
      reads this
    {
      Card(contrnr, msgid, plciList, plcis, nccis, bchans, out, bad, polite)
    }

    /** Objects, lists and channels fit together, nothing freed has been used, and both machines rest where
        they may. */
    ghost predicate Valid()
      reads this
    {
      CallInvariant.Inv(State())
    }

    constructor (contrnr: nat, nbchan: nat)
      requires contrnr > 0
      ensures Valid() && State() == CallInvariant.Init(contrnr, nbchan)
    {
      this.contrnr := contrnr;
      msgid, plciList, plcis, nccis := 0, [], map[], map[];
      bchans := seq(nbchan, _ => NO_BCHAN);
      out, bad, polite := [], false, true;
      CallInvariant.InitInv(contrnr, nbchan);
    }

    // ----- small changes -----

    method SetPlci(p: PlciPtr, r: Plci)
      modifies this`plcis, this`bad
      ensures State() == WithP(old(State()), p, r)
    {
      bad := bad || p !in plcis;
      plcis := plcis[p := r];
    }

    method SetNcci(n: NcciPtr, x: Ncci)
      modifies this`nccis, this`bad
      ensures State() == WithN(old(State()), n, x)
    {
      bad := bad || n !in nccis;
      nccis := nccis[n := x];
    }

    method SetChan(ch: nat, b: Bchan)
      modifies this`bchans, this`bad
      ensures State() == WithB(old(State()), ch, b)
    {
      if ch < |bchans| { bchans := bchans[ch := b]; } else { bad := true; }
    }

    ghost method UsesP(p: PlciPtr)
      modifies this`bad
      ensures State() == UseP(old(State()), p)
    {
      bad := bad || p !in plcis;
    }

    ghost method UsesN(n: NcciPtr)
      modifies this`bad
      ensures State() == UseN(old(State()), n)
    {
      bad := bad || n !in nccis;
    }

    ghost method Emits(o: Out)
      modifies this`out
      ensures State() == Emit(old(State()), o)
    {
      out := out + [o];
    }

    method TakeNumber() returns (number: word)
      modifies this`msgid
      ensures number == old(msgid) && State() == NextNumber(old(State()))
    {
      number := msgid;
      msgid := (msgid + 1) % WORDS;
    }

    method SendNumbered(command: byte, subcommand: byte, adr: dword) returns (number: word)
      modifies this`msgid, this`out
      ensures number == old(msgid) && State() == Numbered(old(State()), command, subcommand, adr)
    {
      number := TakeNumber();
      Emits(Send(command, subcommand, adr, Some(number)));
    }

    // ----- plci management -----

    method NewPlciOn(chan: nat, p: PlciPtr)
      modifies this`plcis, this`plciList, this`bchans, this`bad
      ensures State() == NewPlci(old(State()), chan, p)
    {
      plcis := plcis[p := NewPlciAt(chan)];
      plciList := [p] + plciList;
      SetChan(chan, Ch(bchans, chan).(plcip := Some(p)));
    }

    method FindPlciByPlci(plci: dword) returns (r: Option<PlciPtr>)
      ensures r == FindPlci(State(), plci)
    {
      var i := 0;
      while i < |plciList|
        invariant i <= |plciList| && FindPlci(State(), plci) == PlciByNumber(State(), plciList[i..], plci)
      {
        assert plciList[i..][1..] == plciList[i + 1..];
        if Pl(plcis, plciList[i]).plci == plci { return Some(plciList[i]); }
        i := i + 1;
      }
      return None;
    }

    method FindPlciByMsgid(number: word) returns (r: Option<PlciPtr>)
      ensures r == PlciByMsgid(State(), plciList, number)
    {
      var i := 0;
      while i < |plciList|
        invariant i <= |plciList|
        invariant PlciByMsgid(State(), plciList, number) == PlciByMsgid(State(), plciList[i..], number)
      {
        assert plciList[i..][1..] == plciList[i + 1..];
        if Pl(plcis, plciList[i]).msgid == number { return Some(plciList[i]); }
        i := i + 1;
      }
      return None;
    }

    /** Unlink x: the list before it, then the list behind it. */
    static method Unlink(list: seq<nat>, x: nat) returns (r: seq<nat>, found: bool)
      ensures r == Remove(list, x) && (found <==> x in list)
    {
      var i := 0;
      while i < |list|
        invariant i <= |list| && x !in list[..i] && Remove(list, x) == list[..i] + Remove(list[i..], x)
      {
        assert list[i..][1..] == list[i + 1..];
        if list[i] == x { return list[..i] + list[i + 1..], true; }
        i := i + 1;
      }
      assert list[..i] == list;
      return list, false;
    }

    method FreePlciAt(p: PlciPtr)
      modifies this`plcis, this`plciList, this`bchans, this`bad, this`polite
      ensures State() == FreePlci(old(State()), p)
    {
      var list, found := Unlink(plciList, p);
      if !found { return; }
      var ch := Pl(plcis, p).chan;
      polite := polite && Ch(bchans, ch).nccip.None?;
      UsesP(p);
      plciList := list;
      SetChan(ch, Bchan(None, Ch(bchans, ch).nccip, false, false));
      plcis := plcis - {p};
    }

    // ----- ncci management -----

    method NewNcciFor(p: PlciPtr, n: NcciPtr, ncci: dword)
      modifies this`plcis, this`nccis, this`bchans, this`bad
      ensures State() == NewNcci(old(State()), p, n, ncci)
    {
      var r := Pl(plcis, p);
      SetPlci(p, r.(nccis := [n] + r.nccis));
      nccis := nccis[n := NO_NCCI.(ncci := ncci, plcip := p, chan := r.chan)];
      SetChan(r.chan, Ch(bchans, r.chan).(nccip := Some(n)));
    }

    method FindNcciByNcci(ncci: dword) returns (r: Option<NcciPtr>)
      ensures r == FindNcci(State(), ncci)
    {
      var plcip := FindPlciByPlci(ncci % WORDS);
      if plcip == None { return None; }
      var list := Pl(plcis, plcip.value).nccis;
      var i := 0;
      while i < |list|
        invariant i <= |list| && NcciByNumber(State(), list, ncci) == NcciByNumber(State(), list[i..], ncci)
      {
        assert list[i..][1..] == list[i + 1..];
        if Nc(nccis, list[i]).ncci == ncci { return Some(list[i]); }
        i := i + 1;
      }
      return None;
    }

    method FindNcciByNumber(ncci: dword, number: word) returns (r: Option<NcciPtr>)
      ensures r == FindNcciByMsgid(State(), ncci, number)
    {
      var plcip := FindPlciByPlci(ncci % WORDS);
      if plcip == None { return None; }
      var list := Pl(plcis, plcip.value).nccis;
      var i := 0;
      while i < |list|
        invariant i <= |list| && NcciByMsgid(State(), list, number) == NcciByMsgid(State(), list[i..], number)
      {
        assert list[i..][1..] == list[i + 1..];
        if Nc(nccis, list[i]).msgid == number { return Some(list[i]); }
        i := i + 1;
      }
      return None;
    }

    method FreeNcciAt(n: NcciPtr)
      modifies this`plcis, this`nccis, this`bchans, this`bad
      ensures State() == FreeNcci(old(State()), n)
    {
      var x := Nc(nccis, n);
      UsesN(n);
      var r := Pl(plcis, x.plcip);
      var list, _ := Unlink(r.nccis, n);
      SetPlci(x.plcip, r.(nccis := list));
      SetChan(x.chan, Ch(bchans, x.chan).(nccip := None));
      nccis := nccis - {n};
    }

    // ----- the machines -----

    method P0At(p: PlciPtr)
      modifies this`plcis, this`plciList, this`bchans, this`bad, this`polite, this`out
      ensures State() == P0(old(State()), p)
    {
      UsesP(p);
      Emits(Stat(DHUP, Pl(plcis, p).chan));
      FreePlciAt(p);
    }

    method PlciChangeState(p: PlciPtr, e: PlciEvent)
      modifies this`plcis, this`plciList, this`bchans, this`bad, this`polite, this`out
      ensures State() == ChangePlci(old(State()), p, e)
    {
      var row := ScanPlci(Pl(plcis, p).state, e);
      if row == None {
        UsesP(p);
        return;
      }
      SetPlci(p, Pl(plcis, p).(state := row.value.next));
      if row.value.p0 { P0At(p); }
    }

    method N0At(n: NcciPtr)
      modifies this
      ensures State() == N0(old(State()), n)
    {
      var x := Nc(nccis, n);
      UsesN(n);
      UsesP(x.plcip);
      var _ := SendNumbered(DISCONNECT, REQ, Pl(plcis, x.plcip).plci);
      PlciChangeState(x.plcip, DisconnectReq);
      Emits(Stat(BHUP, x.chan));
      assert Nc(nccis, n) == x;
      FreeNcciAt(n);
    }

    method NcciChangeState(n: NcciPtr, e: NcciEvent)
      modifies this
      ensures State() == ChangeNcci(old(State()), n, e)
    {
      var x := Nc(nccis, n);
      var row := ScanNcci(x.state, e);
      if row == None {
        UsesN(n);
        return;
      }
      if row.value.next == NPrevious {
        SetNcci(n, x.(state := x.oldstate, oldstate := row.value.act));
      } else {
        SetNcci(n, x.(oldstate := row.value.act, state := row.value.next));
      }
      if row.value.n0 { N0At(n); }
    }

    /** new_bchan. */
    method NewBchan() returns (chan: int)
      modifies this`bchans, this`bad
      ensures var ch := FreeChannel(old(bchans), 0);
        if ch == |old(bchans)| then chan == -1 && State() == old(State())
        else chan == ch && State() == CallSteps.Chosen(old(State()), ch)
    {
      var i := 0;
      while i < |bchans|
        invariant i <= |bchans| && State() == old(State()) && FreeChannel(bchans, 0) == FreeChannel(bchans, i)
      {
        if bchans[i].plcip == None {
          SetChan(i, bchans[i].(disconnecting := false));
          return i;
        }
        i := i + 1;
      }
      return -1;
    }

    method AnswerTo(command: byte, adr: dword)
      modifies this`out
      ensures State() == Answer(old(State()), command, adr)
    {
      Emits(Send(command, RESP, adr, None));
    }

    method FlagChannel(ch: nat)
      modifies this`bchans, this`bad
      ensures State() == Disconnecting(old(State()), ch)
    {
      SetChan(ch, Ch(bchans, ch).(disconnecting := true));
    }

    // ----- commands -----

    method DialOn(arg: nat, mem: Option<PlciPtr>)
      modifies this
      ensures State() == DoDial(old(State()), arg, mem)
    {
      var ch := ChannelOf(|bchans|, arg);
      if Ch(bchans, ch).plcip.Some? { return; }
      var number := TakeNumber();
      if mem == None {
        Emits(Stat(DHUP, ch));
        return;
      }
      var p := mem.value;
      NewPlciOn(ch, p);
      SetPlci(p, Pl(plcis, p).(msgid := number));
      PlciChangeState(p, ConnectReq);
      Emits(Send(CONNECT, REQ, contrnr % 0x1_0000_0000, Some(number)));
    }

    method AcceptOn(arg: nat)
      modifies this
      ensures State() == DoAccept(old(State()), arg)
    {
      var b := Ch(bchans, ChannelOf(|bchans|, arg));
      if b.plcip == None {
        bad := true;
        return;
      }
      var p := b.plcip.value;
      UsesP(p);
      var adr := Pl(plcis, p).plci;
      var number := TakeNumber();
      PlciChangeState(p, ConnectResp);
      Emits(Send(CONNECT, RESP, adr, Some(number)));
    }

    method HangupNcciOn(ch: nat, n: NcciPtr)
      modifies this
      ensures State() == HangupNcci(old(State()), ch, n)
    {
      FlagChannel(ch);
      UsesN(n);
      var adr := Nc(nccis, n).ncci;
      var number := TakeNumber();
      NcciChangeState(n, B3DisconnectReq);
      Emits(Send(DISCONNECT_B3, REQ, adr, Some(number)));
    }

    method HangupPlciOn(ch: nat, p: PlciPtr)
      modifies this
      ensures State() == HangupPlci(old(State()), ch, p)
    {
      var r := Pl(plcis, p);
      UsesP(p);
      if r.state == PIncoming {
        FlagChannel(ch);
      } else if r.plci != 0 {
        FlagChannel(ch);
        var number := TakeNumber();
        PlciChangeState(p, DisconnectReq);
        Emits(Send(DISCONNECT, REQ, r.plci, Some(number)));
      }
    }

    method HangupOn(arg: nat)
      modifies this
      ensures State() == DoHangup(old(State()), arg)
    {
      var ch := ChannelOf(|bchans|, arg);
      var b := Ch(bchans, ch);
      if b.disconnecting { return; }
      if b.nccip.Some? { HangupNcciOn(ch, b.nccip.value); }
      else if b.plcip.Some? { HangupPlciOn(ch, b.plcip.value); }
    }

    /** capidrv_add_ack: the entry goes to the end of the queue; it fails without memory. */
    method AddAck(n: NcciPtr, handle: word, len: int, memory: bool) returns (ok: bool)
      modifies this`nccis, this`bad
      ensures ok == memory
      ensures var x := Nc(old(nccis), n);
        State() == if ok then WithN(old(State()), n, Queued(x, handle, len)) else old(State())
    {
      if !memory { return false; }
      SetNcci(n, Queued(Nc(nccis, n), handle, len));
      return true;
    }

    /** capidrv_del_ack: the entry with this handle goes, and its length is returned, or -1. */
    method DelAck(n: NcciPtr, handle: word) returns (len: int)
      modifies this`nccis, this`bad
      ensures var x := Nc(old(nccis), n);
        && State() == WithN(old(State()), n, x.(acks := Del(x.acks, handle)))
        && len == if Find(x.acks, handle) < |x.acks| then x.acks[Find(x.acks, handle)].what else -1
    {
      var x := Nc(nccis, n);
      var pp := 0;
      while pp < |x.acks| && x.acks[pp].handle != handle
        invariant pp <= |x.acks| && Find(x.acks, handle) == pp + Find(x.acks[pp..], handle)
      {
        assert x.acks[pp..][1..] == x.acks[pp + 1..];
        pp := pp + 1;
      }
      len := if pp < |x.acks| then x.acks[pp].what else -1;
      SetNcci(n, x.(acks := if pp < |x.acks| then x.acks[..pp] + x.acks[pp + 1..] else x.acks));
    }

    /** What if_sendbuf does to the NCCI once it may send. */
    method SendOn(n: NcciPtr, doack: bool, len: nat, a: SendAnswer)
      modifies this`nccis, this`bad
      ensures var d := WithN(old(State()), n, Sending(Nc(old(nccis), n), doack, len, a));
        State() == if a == NoAckMemory then old(State()) else d
    {
      var datahandle := Nc(nccis, n).datahandle;
      var ok := AddAck(n, datahandle, if doack then len else -1, a != NoAckMemory);
      if !ok { return; }
      if a == Taken {
        var x := Nc(nccis, n);
        SetNcci(n, x.(datahandle := (x.datahandle + 1) % WORDS, sends := x.sends + 1));
      } else {
        var _ := DelAck(n, datahandle);
      }
    }

    method SendBufOn(arg: nat, doack: bool, len: nat, a: SendAnswer)
      modifies this
      ensures State() == DoSendBuf(old(State()), arg, doack, len, a)
    {
      var b := Ch(bchans, ChannelOf(|bchans|, arg));
      if b.nccip == None { return; }
      var n := b.nccip.value;
      UsesN(n);
      var adr := Nc(nccis, n).ncci;
      if Nc(nccis, n).state != NActive { return; }
      var number := TakeNumber();
      SendOn(n, doack, len, a);
      if a == Taken || a == Refused { Emits(Send(DATA_B3, REQ, adr, Some(number))); }
    }

    /** if_sendbuf: data are handed on only for an NCCI that is up. */
    method IfSendbuf(arg: nat, doack: bool, len: nat, a: SendAnswer)
      requires Valid() && |bchans| > 0
      modifies this
      ensures Valid() && State() == DoSendBuf(old(State()), arg, doack, len, a)
      ensures out != old(out) ==> var b := old(bchans)[Channel(old(State()), arg)];
        b.nccip.Some? && b.nccip.value in old(nccis) && old(nccis)[b.nccip.value].up
    {
      SendsOnlyUp(State(), arg, doack, len, a);
      KeepCommand(State(), SendBuf(arg, doack, len, a));
      SendBufOn(arg, doack, len, a);
    }

    method CapidrvCommand(k: Command)
      requires Valid() && May(State(), Call(k))
      modifies this
      ensures Valid() && State() == DoCommand(old(State()), k)
    {
      KeepCommand(State(), k);
      CommandOn(k);
    }

    method CommandOn(k: Command)
      modifies this
      ensures State() == DoCommand(old(State()), k)
    {
      match k {
        case Dial(arg, mem) => DialOn(arg, mem);
        case Accept(arg) => AcceptOn(arg);
        case Hangup(arg) => HangupOn(arg);
        case SendBuf(arg, doack, len, a) => SendBufOn(arg, doack, len, a);
      }
    }

    // ----- incoming calls -----

    method RingOn(ch: nat, p: PlciPtr, plci: dword)
      modifies this
      ensures State() == Ringing(old(State()), ch, p, plci)
    {
      NewPlciOn(ch, p);
      SetChan(ch, Ch(bchans, ch).(incoming := true));
      SetPlci(p, Pl(plcis, p).(plci := plci));
      PlciChangeState(p, ConnectInd);
    }

    method Verdict(p: PlciPtr, plci: dword, verdict: int)
      modifies this
      ensures State() == Judge(old(State()), p, plci, verdict)
    {
      if verdict == 1 {
        if Pl(plcis, p).state == PIncoming {
          var number := TakeNumber();
          SetPlci(p, Pl(plcis, p).(msgid := number));
          Emits(Send(ALERT, REQ, Pl(plcis, p).plci, Some(number)));
        } else {
          UsesP(p);
        }
      } else {
        Emits(Send(CONNECT, RESP, plci, None, RejectFor(verdict)));
        PlciChangeState(p, ConnectReject);
      }
    }

    /** The ISDN layer's commands from within its callback. */
    method Callback(calls: seq<Command>)
      modifies this
      ensures State() == RunCalls(old(State()), calls)
    {
      var i := 0;
      while i < |calls|
        invariant i <= |calls| && RunCalls(State(), calls[i..]) == RunCalls(old(State()), calls)
      {
        assert calls[i..][1..] == calls[i + 1..];
        CommandOn(calls[i]);
        i := i + 1;
      }
    }

    method HandleIncomingCall(plci: dword, mem: Option<PlciPtr>, calls: seq<Command>, verdict: int)
      modifies this
      ensures State() == DoConnectInd(old(State()), plci, mem, calls, verdict)
    {
      var chan := NewBchan();
      if chan == -1 || mem == None { return; }
      RingOn(chan, mem.value, plci);
      Emits(Stat(ICALL, chan));
      Callback(calls);
      Verdict(mem.value, plci, verdict);
    }

    // ----- messages for PLCIs -----

    method HandleDisconnectInd(plci: dword)
      modifies this
      ensures State() == DoDisconnectInd(old(State()), plci)
    {
      var plcip := FindPlciByPlci(plci);
      if plcip == None {
        AnswerTo(DISCONNECT, plci);
        return;
      }
      FlagChannel(Pl(plcis, plcip.value).chan);
      PlciChangeState(plcip.value, DisconnectInd);
      AnswerTo(DISCONNECT, plci);
      PlciChangeState(plcip.value, DisconnectResp);
    }

    method HandleConnectConf(plci: dword, number: word, info: word)
      modifies this
      ensures State() == DoConnectConf(old(State()), plci, number, info)
    {
      var plcip := FindPlciByMsgid(number);
      if plcip == None { return; }
      SetPlci(plcip.value, Pl(plcis, plcip.value).(plci := plci));
      PlciChangeState(plcip.value, if info != 0 then ConnectConfError else ConnectConfOk);
    }

    method ConnectB3(p: PlciPtr, n: NcciPtr, plci: dword)
      modifies this
      ensures State() == NewB3(old(State()), p, n, plci)
    {
      var chan := Pl(plcis, p).chan;
      AnswerTo(CONNECT_ACTIVE, plci);
      NewNcciFor(p, n, plci);
      var number := SendNumbered(CONNECT_B3, REQ, Pl(plcis, p).plci);
      SetNcci(n, Nc(nccis, n).(msgid := number));
      Emits(Stat(DCONN, chan));
    }

    method HandleConnectActiveInd(plci: dword, mem: Option<NcciPtr>)
      modifies this
      ensures State() == DoConnectActiveInd(old(State()), plci, mem)
    {
      var plcip := FindPlciByPlci(plci);
      if plcip == None { return; }
      var p := plcip.value;
      if Ch(bchans, Pl(plcis, p).chan).incoming {
        AnswerTo(CONNECT_ACTIVE, plci);
        PlciChangeState(p, ConnectActiveInd);
      } else if mem == None {
        AnswerTo(CONNECT_ACTIVE, plci);
      } else {
        ConnectB3(p, mem.value, plci);
        PlciChangeState(p, ConnectActiveInd);
        NcciChangeState(mem.value, B3Req);
      }
    }

    method HandlePlci(m: Message)
      requires Valid() && ForPlci(m) && Dispatched(State(), m) && MayReceive(State(), m)
      modifies this
      ensures Valid() && State() == DoMessage(old(State()), m)
    {
      KeepMessage(State(), m);
      match m {
        case DisconnectIndMsg(plci) => HandleDisconnectInd(plci);
        case DisconnectConfMsg(plci) =>
          var plcip := FindPlciByPlci(plci);
          if plcip.Some? { FlagChannel(Pl(plcis, plcip.value).chan); }
        case ConnectIndMsg(plci, mem, calls, verdict) => HandleIncomingCall(plci, mem, calls, verdict);
        case ConnectConfMsg(plci, number, info) => HandleConnectConf(plci, number, info);
        case ConnectActiveIndMsg(plci, memN) => HandleConnectActiveInd(plci, memN);
      }
    }

    // ----- messages for NCCIs -----

    method HandleB3ActiveInd(ncci: dword)
      modifies this
      ensures State() == DoB3ActiveInd(old(State()), ncci)
    {
      var nccip := FindNcciByNcci(ncci);
      if nccip == None { return; }
      var n := nccip.value;
      var chan := Nc(nccis, n).chan;
      AnswerTo(CONNECT_B3_ACTIVE, ncci);
      SetNcci(n, Nc(nccis, n).(up := true));
      NcciChangeState(n, B3ActiveInd);
      Emits(Stat(BCONN, chan));
    }

    method HandleB3Ind(ncci: dword, mem: Option<NcciPtr>)
      modifies this
      ensures State() == DoB3Ind(old(State()), ncci, mem)
    {
      var plcip := FindPlciByPlci(ncci % WORDS);
      if plcip.Some? && mem.Some? {
        NewNcciFor(plcip.value, mem.value, ncci);
        NcciChangeState(mem.value, B3Ind);
        var _ := SendNumbered(CONNECT_B3, RESP, ncci);
        NcciChangeState(mem.value, B3Resp);
      } else {
        var number := TakeNumber();
        Emits(Send(CONNECT_B3, RESP, ncci, Some(number), 2));
      }
    }

    method HandleB3Conf(ncci: dword, number: word, info: word)
      modifies this
      ensures State() == DoB3Conf(old(State()), ncci, number, info)
    {
      var nccip := FindNcciByNumber(ncci, number);
      if nccip == None { return; }
      SetNcci(nccip.value, Nc(nccis, nccip.value).(ncci := ncci));
      NcciChangeState(nccip.value, if info != 0 then B3ConfError else B3ConfOk);
    }

    method HandleDataB3Conf(ncci: dword, handle: word)
      modifies this
      ensures State() == DoDataB3Conf(old(State()), ncci, handle)
    {
      var nccip := FindNcciByNcci(ncci);
      if nccip == None { return; }
      var chan := Nc(nccis, nccip.value).chan;
      var len := DelAck(nccip.value, handle);
      if len >= 0 { Emits(Stat(BSENT(len), chan)); }
    }

    method HandleB3DisconnectInd(ncci: dword)
      modifies this
      ensures State() == DoB3DisconnectInd(old(State()), ncci)
    {
      var nccip := FindNcciByNcci(ncci);
      if nccip == None { return; }
      FlagChannel(Nc(nccis, nccip.value).chan);
      NcciChangeState(nccip.value, B3DisconnectInd);
      AnswerTo(DISCONNECT_B3, ncci);
      NcciChangeState(nccip.value, B3DisconnectResp);
    }

    method HandleResetB3Ind(ncci: dword)
      modifies this
      ensures State() == DoResetB3Ind(old(State()), ncci)
    {
      var nccip := FindNcciByNcci(ncci);
      if nccip == None { return; }
      NcciChangeState(nccip.value, ResetInd);
      AnswerTo(RESET_B3, ncci);
    }

    method HandleNcci(m: Message)
      requires Valid() && !ForPlci(m) && Dispatched(State(), m) && MayReceive(State(), m)
      modifies this
      ensures Valid() && State() == DoMessage(old(State()), m)
    {
      KeepMessage(State(), m);
      match m {
        case B3ActiveIndMsg(ncci) => HandleB3ActiveInd(ncci);
        case B3IndMsg(ncci, memN) => HandleB3Ind(ncci, memN);
        case B3ConfMsg(ncci, number, info) => HandleB3Conf(ncci, number, info);
        case B3T90ActiveIndMsg(ncci) => AnswerTo(CONNECT_B3_T90_ACTIVE, ncci);
        case DataB3ConfMsg(ncci, handle) => HandleDataB3Conf(ncci, handle);
        case B3DisconnectIndMsg(ncci) => HandleB3DisconnectInd(ncci);
        case B3DisconnectConfMsg(ncci, info) =>
          var nccip := FindNcciByNcci(ncci);
          if nccip.Some? && info != 0 { NcciChangeState(nccip.value, B3DisconnectConfError); }
        case ResetB3IndMsg(ncci) => HandleResetB3Ind(ncci);
      }
    }

    /** capidrv_recv_message: the address decides which handler gets the message, and the handlers ignore
        messages for other controllers and those they have no case for. */
    method CapidrvRecvMessage(m: Message)
      requires Valid() && May(State(), Recv(m))
      modifies this
      ensures Valid() && State() == Receive(old(State()), m)
    {
      var adr := Address(m);
      if adr % 0x80 != contrnr || adr < 0x100 { return; }
      if adr < WORDS {
        if ForPlci(m) { HandlePlci(m); }
      } else if !ForPlci(m) {
        HandleNcci(m);
      }
    }

    // ----- taking the controller down -----

    /** The loop of capidrv_delcontr, from the last channel to the first: it empties the list, and uses no
        freed object exactly if the NCCI of each channel still has its PLCI when its turn comes. */
    method Delcontr()
      requires Valid()
      modifies this
      ensures plciList == [] && State() == DelAll(old(State()), |old(bchans)|)
      ensures !bad <==> forall ch :: 0 <= ch < |old(bchans)| ==> CallTeardown.Owned(old(State()), ch)
      ensures !bad ==> plcis == map[]
    {
      ListEmptied(State());
      TakenDownIff(State());
      DelChannels();
    }

    method DelChannels()
      modifies this
      ensures State() == DelAll(old(State()), |old(bchans)|)
    {
      ghost var goal := DelAll(State(), |bchans|);
      var nbchan: nat := |bchans|;
      while nbchan > 0
        invariant DelAll(State(), nbchan) == goal
      {
        DelOne(nbchan - 1);
        nbchan := nbchan - 1;
      }
    }

    method DelOne(ch: nat)
      modifies this
      ensures State() == DelChannel(old(State()), ch)
    {
      Emits(Stat(DISCH, ch));
      var b := Ch(bchans, ch);
      if b.nccip.Some? { FreeNcciAt(b.nccip.value); }
      if b.plcip.Some? { FreePlciAt(b.plcip.value); }
    }
  }
}
