/** Four runs of call control that end where one would not expect.  In each a call is dialled on a controller
    with one channel and becomes active, which asks for an NCCI. */
module CallExamples {
  import opened Wire
  import opened Programs
  import opened AckQueue
  import opened CallControl
  import opened CallInvariant
  import opened CallSteps
  import opened CallRuns
  import opened CallFlags
  import opened CallTeardown

  const ACTIVE: seq<Event> := [
    Call(Dial(0, Some(1))), Recv(ConnectConfMsg(0x101, 0, 0)), Recv(ConnectActiveIndMsg(0x101, Some(1)))]

  const CLEARED: Event := Recv(DisconnectIndMsg(0x101))
  const HANGUP: Event := Call(Hangup(0))
  const B3CONFIRMED: Event := Recv(B3ConfMsg(0x10101, 1, 0))
  const B3ACTIVE: Event := Recv(B3ActiveIndMsg(0x10101))
  const REFUSED: Event := Recv(B3DisconnectConfMsg(0x10101, 0x2001))

  /** Events appended to a run. */
  lemma {:induction false} Extend(c: Card, es: seq<Event>, e: Event)
    requires Possible(c, es) && May(After(c, es), e)
    ensures Possible(c, es + [e]) && After(c, es + [e]) == Do(After(c, es), e)
    decreases |es|
  {
    var fs := es + [e];
    if es == [] {
      assert fs[1..] == [];
      assert After(Do(c, e), []) == Do(c, e);
    } else {
      assert fs[1..] == es[1..] + [e];
      Extend(Do(c, es[0]), es[1..], e);
    }
  }

  lemma Three(c: Card, es: seq<Event>, e1: Event, e2: Event, e3: Event)
    requires Possible(c, es) && May(After(c, es), e1)
    requires var d := Do(After(c, es), e1); May(d, e2) && May(Do(d, e2), e3)
    ensures Possible(c, es + [e1, e2, e3]) && After(c, es + [e1, e2, e3]) == Do(Do(Do(After(c, es), e1), e2), e3)
  {
    Extend(c, es, e1);
    Extend(c, es + [e1], e2);
    Extend(c, es + [e1] + [e2], e3);
    assert es + [e1] + [e2] + [e3] == es + [e1, e2, e3];
  }

  // ----- the common part -----

  lemma Dialled(c: Card, d: Card)
    requires c == Init(1, 1) && d == Do(c, ACTIVE[0])
    ensures May(c, ACTIVE[0]) && d.contrnr == 1 && d.list == [1] && d.msgid == 1
    ensures d.plcis == map[1 := Plci(0, 0, 0, POutgoing, [])]
    ensures d.nccis == map[] && d.bchans == [Bchan(Some(1), None, false, false)]
  {
  }

  lemma Confirmed(c: Card, d: Card)
    requires c.contrnr == 1 && c.list == [1] && c.plcis == map[1 := Plci(0, 0, 0, POutgoing, [])]
    requires c.nccis == map[] && c.bchans == [Bchan(Some(1), None, false, false)] && d == Do(c, ACTIVE[1])
    ensures May(c, ACTIVE[1]) && d == c.(plcis := map[1 := Plci(0x101, 0, 0, PAllocated, [])])
  {
  }

  /** The call is active with one NCCI, x, and its channel has the given flag. */
  predicate Up(c: Card, x: Ncci, flag: bool) {
    && c.contrnr == 1 && c.list == [1] && c.plcis == map[1 := Plci(0x101, 0, 0, PActive, [1])]
    && c.nccis == map[1 := x] && c.bchans == [Bchan(Some(1), Some(1), false, flag)]
  }

  /** The NCCI when CONNECT_B3_REQ has been sent. */
  const ASKED := NO_NCCI.(ncci := 0x101, plcip := 1, msgid := 1, state := NOutgoing)

  lemma Activated(c: Card, d: Card)
    requires c.contrnr == 1 && c.list == [1] && c.plcis == map[1 := Plci(0x101, 0, 0, PAllocated, [])]
    requires c.nccis == map[] && c.bchans == [Bchan(Some(1), None, false, false)] && c.msgid == 1
    requires d == Do(c, ACTIVE[2])
    ensures May(c, ACTIVE[2]) && Up(d, ASKED, false)
  {
    assert FindPlci(c, 0x101) == Some(1);
    var e := NewB3(c, 1, 1, 0x101);
    SetUp(c, e);
    assert d == ChangeNcci(ChangePlci(e, 1, PlciEvent.ConnectActiveInd), 1, B3Req);
    BothMove(e);
  }

  lemma BothMove(e: Card)
    requires e.contrnr == 1 && e.list == [1] && e.plcis == map[1 := Plci(0x101, 0, 0, PAllocated, [1])]
    requires e.nccis == map[1 := ASKED.(state := NNone)] && e.bchans == [Bchan(Some(1), Some(1), false, false)]
    ensures Up(ChangeNcci(ChangePlci(e, 1, PlciEvent.ConnectActiveInd), 1, B3Req), ASKED, false)
  {
    assert e.plcis[1 := Plci(0x101, 0, 0, PActive, [1])] == map[1 := Plci(0x101, 0, 0, PActive, [1])];
    assert e.nccis[1 := ASKED] == map[1 := ASKED];
  }

  lemma SetUp(c: Card, e: Card)
    requires c.contrnr == 1 && c.list == [1] && c.plcis == map[1 := Plci(0x101, 0, 0, PAllocated, [])]
    requires c.nccis == map[] && c.bchans == [Bchan(Some(1), None, false, false)] && c.msgid == 1
    requires e == NewB3(c, 1, 1, 0x101)
    ensures e.contrnr == 1 && e.list == [1] && e.plcis == map[1 := Plci(0x101, 0, 0, PAllocated, [1])]
    ensures e.nccis == map[1 := ASKED.(state := NNone)] && e.bchans == [Bchan(Some(1), Some(1), false, false)]
  {
    var r := Plci(0x101, 0, 0, PAllocated, []);
    assert [1] + r.nccis == [1];
    assert c.plcis[1 := r.(nccis := [1])] == map[1 := Plci(0x101, 0, 0, PAllocated, [1])];
  }

  lemma CallActive()
    ensures Possible(Init(1, 1), ACTIVE) && Up(After(Init(1, 1), ACTIVE), ASKED, false)
    ensures Inv(After(Init(1, 1), ACTIVE))
  {
    var c := Init(1, 1);
    Dialled(c, Do(c, ACTIVE[0]));
    Confirmed(Do(c, ACTIVE[0]), Do(Do(c, ACTIVE[0]), ACTIVE[1]));
    Activated(Do(Do(c, ACTIVE[0]), ACTIVE[1]), Do(Do(Do(c, ACTIVE[0]), ACTIVE[1]), ACTIVE[2]));
    assert After(c, []) == c && Possible(c, []);
    Three(c, [], ACTIVE[0], ACTIVE[1], ACTIVE[2]);
    assert [] + [ACTIVE[0], ACTIVE[1], ACTIVE[2]] == ACTIVE;
    EveryRun(1, 1, ACTIVE);
  }

  // ----- single events -----

  lemma FindsIt(c: Card, x: Ncci, flag: bool)
    requires Up(c, x, flag)
    ensures FindPlci(c, 0x101) == Some(1) && FindPlciOf(c, 0x10101) == Some(1)
    ensures x.ncci == 0x10101 ==> FindNcci(c, 0x10101) == Some(1)
    ensures x.msgid == 1 ==> FindNcciByMsgid(c, 0x10101, 1) == Some(1)
  {
    assert Pl(c.plcis, 1).nccis == [1];
  }

  lemma Moves(c: Card, x: Ncci, flag: bool, e: NcciEvent)
    requires Up(c, x, flag)
    requires var t := NcciNext(x.state, e); t.Some? ==> !t.value.1
    ensures Up(ChangeNcci(c, 1, e), NextN(x, e), flag)
  {
    assert c.nccis[1 := NextN(x, e)] == map[1 := NextN(x, e)];
  }

  lemma HungUp(c: Card, x: Ncci)
    requires Up(c, x, false)
    ensures May(c, HANGUP) && Up(Do(c, HANGUP), NextN(x, B3DisconnectReq), true)
  {
    Moves(NextNumber(Disconnecting(c, 0)), x, true, B3DisconnectReq);
  }

  /** The NCCI when CONNECT_B3_CONF has come. */
  const NUMBERED := ASKED.(ncci := 0x10101, state := NAllocated, oldstate := NOutgoing)

  lemma B3Confirmed(c: Card, flag: bool)
    requires Up(c, ASKED, flag)
    ensures May(c, B3CONFIRMED) && Up(Do(c, B3CONFIRMED), NUMBERED, flag)
  {
    FindsIt(c, ASKED, flag);
    var y := ASKED.(ncci := 0x10101);
    assert c.nccis[1 := y] == map[1 := y];
    Moves(WithN(c, 1, y), y, flag, B3ConfOk);
  }

  lemma B3Activated(c: Card, x: Ncci, flag: bool)
    requires Up(c, x, flag) && x.ncci == 0x10101 && x.state == NAllocated
    ensures May(c, B3ACTIVE) && Up(Do(c, B3ACTIVE), x.(up := true, state := NActive, oldstate := NAllocated), flag)
  {
    FindsIt(c, x, flag);
    var d, y := Answer(c, CONNECT_B3_ACTIVE, 0x10101), x.(up := true);
    assert d.nccis[1 := y] == map[1 := y];
    Moves(WithN(d, 1, y), y, flag, B3ActiveInd);
  }

  lemma DisconnectRefused(c: Card, x: Ncci, flag: bool)
    requires Up(c, x, flag) && x.ncci == 0x10101 && x.state == NDisconnecting && x.oldstate == NAllocated
    ensures May(c, REFUSED) && Up(Do(c, REFUSED), x.(state := NAllocated, oldstate := NDisconnecting), flag)
  {
    FindsIt(c, x, flag);
    Moves(c, x, flag, B3DisconnectConfError);
  }

  lemma Disconnected(c: Card, x: Ncci)
    requires Up(c, x, false)
    ensures var d := Do(c, CLEARED);
      && May(c, CLEARED) && d.list == [] && d.plcis == map[]
      && d.nccis == c.nccis && d.bchans == [Bchan(None, Some(1), false, false)]
  {
    FindsIt(c, x, false);
    var d := Disconnecting(c, 0);
    assert d.bchans == [Bchan(Some(1), Some(1), false, true)];
    var e := ChangePlci(d, 1, DisconnectInd);
    assert e.plcis == map[1 := Plci(0x101, 0, 0, PDisconnected, [1])];
    Ends(Answer(e, DISCONNECT, 0x101));
  }

  lemma Ends(e: Card)
    requires e.list == [1] && e.plcis == map[1 := Plci(0x101, 0, 0, PDisconnected, [1])]
    requires e.bchans == [Bchan(Some(1), Some(1), false, true)]
    ensures var d := ChangePlci(e, 1, DisconnectResp);
      d.list == [] && d.plcis == map[] && d.nccis == e.nccis && d.bchans == [Bchan(None, Some(1), false, false)]
  {
  }

  // ----- the runs -----

  /** DISCONNECT_IND comes at once.  The PLCI is freed while the channel still points to the NCCI, and taking the
      controller down goes through the freed PLCI. */
  lemma EarlyDisconnect()
    ensures Possible(Init(1, 1), ACTIVE + [CLEARED])
    ensures var c := After(Init(1, 1), ACTIVE + [CLEARED]);
      Inv(c) && c.list == [] && Ch(c.bchans, 0).nccip == Some(1) && !CallTeardown.Owned(c, 0) && DelAll(c, 1).bad
  {
    CallActive();
    var c := After(Init(1, 1), ACTIVE);
    Disconnected(c, ASKED);
    Extend(Init(1, 1), ACTIVE, CLEARED);
    EveryRun(1, 1, ACTIVE + [CLEARED]);
    Dangles(Do(c, CLEARED));
  }

  lemma Dangles(c: Card)
    requires Inv(c) && c.list == [] && c.plcis == map[] && c.bchans == [Bchan(None, Some(1), false, false)]
    ensures !CallTeardown.Owned(c, 0) && DelAll(c, 1).bad
  {
    TakenDownIff(c);
  }

  /** The channel is flagged, and so a further hangup does nothing. */
  lemma UpFlagged(c: Card, x: Ncci)
    requires Up(c, x, true)
    ensures Nc(c.nccis, 1) == x && Ch(c.bchans, 0).nccip == Some(1) && DoHangup(c, 0) == c
  {
  }

  lemma TooEarlySteps(c: Card)
    requires Up(c, ASKED, false)
    ensures May(c, HANGUP) && May(Do(c, HANGUP), B3CONFIRMED) && May(Do(Do(c, HANGUP), B3CONFIRMED), B3ACTIVE)
    ensures Up(Do(Do(Do(c, HANGUP), B3CONFIRMED), B3ACTIVE),
               NUMBERED.(up := true, state := NActive, oldstate := NAllocated), true)
  {
    HungUp(c, ASKED);
    B3Confirmed(Do(c, HANGUP), true);
    B3Activated(Do(Do(c, HANGUP), B3CONFIRMED), NUMBERED, true);
  }

  /** The call is hung up while its NCCI has no number.  The NCCI comes up all the same, no disconnect is under
      way, and a further hangup does nothing. */
  lemma HungUpTooEarly()
    ensures var es := ACTIVE + [HANGUP, B3CONFIRMED, B3ACTIVE];
      && Possible(Init(1, 1), es)
      && var c := After(Init(1, 1), es);
         Nc(c.nccis, 1).state == NActive && Ch(c.bchans, 0).nccip == Some(1) && DoHangup(c, 0) == c
  {
    CallActive();
    var c := After(Init(1, 1), ACTIVE);
    TooEarlySteps(c);
    Three(Init(1, 1), ACTIVE, HANGUP, B3CONFIRMED, B3ACTIVE);
    UpFlagged(Do(Do(Do(c, HANGUP), B3CONFIRMED), B3ACTIVE),
              NUMBERED.(up := true, state := NActive, oldstate := NAllocated));
  }

  lemma RefusedSteps(c: Card)
    requires Up(c, ASKED, false)
    ensures May(c, B3CONFIRMED) && May(Do(c, B3CONFIRMED), HANGUP) && May(Do(Do(c, B3CONFIRMED), HANGUP), REFUSED)
    ensures Up(Do(Do(Do(c, B3CONFIRMED), HANGUP), REFUSED), NUMBERED.(oldstate := NDisconnecting), true)
  {
    B3Confirmed(c, false);
    HungUp(Do(c, B3CONFIRMED), NUMBERED);
    DisconnectRefused(Do(Do(c, B3CONFIRMED), HANGUP), NextN(NUMBERED, B3DisconnectReq), true);
  }

  /** The call is hung up when its NCCI has a number, and the disconnect is refused.  The NCCI is back where it
      was, no disconnect is under way, and a further hangup does nothing. */
  lemma RefusedForGood()
    ensures var es := ACTIVE + [B3CONFIRMED, HANGUP, REFUSED];
      && Possible(Init(1, 1), es)
      && var c := After(Init(1, 1), es);
         Nc(c.nccis, 1).state == NAllocated && Ch(c.bchans, 0).nccip == Some(1) && DoHangup(c, 0) == c
  {
    CallActive();
    var c := After(Init(1, 1), ACTIVE);
    RefusedSteps(c);
    Three(Init(1, 1), ACTIVE, B3CONFIRMED, HANGUP, REFUSED);
    UpFlagged(Do(Do(Do(c, B3CONFIRMED), HANGUP), REFUSED), NUMBERED.(oldstate := NDisconnecting));
  }

  // ----- a handle that comes round -----

  const SEND: Event := Call(SendBuf(0, true, 1, Taken))
  const FAILS: Event := Call(SendBuf(0, true, 1, Refused))

  function Sends(k: nat): seq<Event> { if k == 0 then [] else Sends(k - 1) + [SEND] }

  /** The NCCI after k sends. */
  function Sent(x: Ncci, k: nat): Ncci { if k == 0 then x else Sending(Sent(x, k - 1), true, 1, Taken) }

  /** The NCCI is active, has sent k blocks and waits for the confirmation of each. */
  predicate Waiting(x: Ncci, k: nat) {
    && x.state == NActive && x.sends == k && x.datahandle == Handle(k)
    && |x.acks| == k && (k > 0 ==> x.acks[0] == Ack(0, 0, 1))
  }

  lemma {:induction false} SentWaits(x: Ncci, k: nat)
    requires Waiting(x, 0)
    ensures Waiting(Sent(x, k), k)
  {
    if k > 0 { SentWaits(x, k - 1); }
  }

  lemma SendUp(c: Card, x: Ncci, a: SendAnswer)
    requires Up(c, x, false) && x.state == NActive && a != NoAckMemory
    ensures var e := Call(SendBuf(0, true, 1, a)); May(c, e) && Up(Do(c, e), Sending(x, true, 1, a), false)
  {
    var y := Sending(x, true, 1, a);
    assert c.nccis[1 := y] == map[1 := y];
  }

  lemma {:induction false} SendsTaken(c: Card, es: seq<Event>, x: Ncci, k: nat)
    requires Possible(c, es) && Up(After(c, es), x, false) && Waiting(x, 0)
    ensures Possible(c, es + Sends(k)) && Up(After(c, es + Sends(k)), Sent(x, k), false)
  {
    if k == 0 {
      assert es + [] == es;
    } else {
      SendsTaken(c, es, x, k - 1);
      SentWaits(x, k - 1);
      SendUp(After(c, es + Sends(k - 1)), Sent(x, k - 1), Taken);
      Extend(c, es + Sends(k - 1), SEND);
      assert es + Sends(k - 1) + [SEND] == es + Sends(k);
    }
  }

  lemma Connected()
    ensures var es := ACTIVE + [B3CONFIRMED] + [B3ACTIVE];
      && Possible(Init(1, 1), es)
      && Up(After(Init(1, 1), es), NUMBERED.(up := true, state := NActive, oldstate := NAllocated), false)
  {
    CallActive();
    var c := After(Init(1, 1), ACTIVE);
    B3Confirmed(c, false);
    Extend(Init(1, 1), ACTIVE, B3CONFIRMED);
    B3Activated(Do(c, B3CONFIRMED), NUMBERED, false);
    Extend(Init(1, 1), ACTIVE + [B3CONFIRMED], B3ACTIVE);
  }

  /** 65536 blocks, or a multiple of that, are taken and none is confirmed, and one more is refused.  The entry
      of the first block is lost, and one stays for the block that was not sent. */
  lemma HandleWraps(k: nat)
    requires k > 0 && k % WORDS == 0
    ensures var es := ACTIVE + [B3CONFIRMED] + [B3ACTIVE] + Sends(k);
      && Possible(Init(1, 1), es + [FAILS])
      && var q := Nc(After(Init(1, 1), es).nccis, 1).acks;
         && |q| == k && q[0] == Ack(0, 0, 1)
         && Nc(After(Init(1, 1), es + [FAILS]).nccis, 1).acks == q[1..] + [Ack(0, k, 1)]
  {
    Connected();
    var x := NUMBERED.(up := true, state := NActive, oldstate := NAllocated);
    var es := ACTIVE + [B3CONFIRMED] + [B3ACTIVE];
    SendsTaken(Init(1, 1), es, x, k);
    SentWaits(x, k);
    SendUp(After(Init(1, 1), es + Sends(k)), Sent(x, k), Refused);
    Extend(Init(1, 1), es + Sends(k), FAILS);
    OldestLost(Sent(x, k).acks, Ack(0, k, 1));
  }
}
