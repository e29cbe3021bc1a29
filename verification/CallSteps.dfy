/** Every message and every command keeps the invariant of the call control. */
module CallSteps {
  import opened Wire
  import opened Programs
  import opened AckQueue
  import opened CallControl
  import opened CallInvariant

  // ----- lookup -----

  lemma {:induction false} PlciByNumberIs(c: Card, list: seq<PlciPtr>, plci: dword)
    ensures var r := PlciByNumber(c, list, plci);
      if r.None? then forall p :: p in list ==> Pl(c.plcis, p).plci != plci
      else r.value in list && Pl(c.plcis, r.value).plci == plci
  {
    if list != [] { PlciByNumberIs(c, list[1..], plci); }
  }

  lemma {:induction false} PlciByMsgidIs(c: Card, list: seq<PlciPtr>, msgid: word)
    ensures var r := PlciByMsgid(c, list, msgid);
      if r.None? then forall p :: p in list ==> Pl(c.plcis, p).msgid != msgid
      else r.value in list && Pl(c.plcis, r.value).msgid == msgid
  {
    if list != [] { PlciByMsgidIs(c, list[1..], msgid); }
  }

  lemma {:induction false} NcciByNumberIs(c: Card, list: seq<NcciPtr>, ncci: dword)
    ensures var r := NcciByNumber(c, list, ncci); r.Some? ==> r.value in list && Nc(c.nccis, r.value).ncci == ncci
  {
    if list != [] { NcciByNumberIs(c, list[1..], ncci); }
  }

  lemma {:induction false} NcciByMsgidIs(c: Card, list: seq<NcciPtr>, msgid: word)
    ensures var r := NcciByMsgid(c, list, msgid); r.Some? ==> r.value in list && Nc(c.nccis, r.value).msgid == msgid
  {
    if list != [] { NcciByMsgidIs(c, list[1..], msgid); }
  }

  /** A PLCI found by a message's address is live, on its channel, and beyond outgoing. */
  lemma FoundPlci(c: Card, plci: dword)
    requires Inv(c) && plci != 0 && FindPlci(c, plci).Some?
    ensures var p := FindPlci(c, plci).value;
      && p in c.plcis && p in c.list && c.plcis[p].plci == plci && c.plcis[p].state != POutgoing
      && c.plcis[p].chan < |c.bchans| && PlciRests(c.plcis[p])
  {
    PlciByNumberIs(c, c.list, plci);
    var p := FindPlci(c, plci).value;
    assert PlciOk(p, Pl(c.plcis, p), c.list, c.bchans) && PlciRests(Pl(c.plcis, p));
  }

  lemma PlciPart(contrnr: nat, ncci: dword)
    requires contrnr > 0 && ForCard(contrnr, ncci)
    ensures ncci % WORDS != 0
  {
    assert ncci == 0x80 * (0x200 * (ncci / WORDS)) + ncci % WORDS;
  }

  /** An NCCI found by a message's address is live, not outgoing, and belongs to a live PLCI that is not
      outgoing either. */
  lemma FoundNcci(c: Card, ncci: dword)
    requires Inv(c) && NcciAddress(c.contrnr, ncci) && FindNcci(c, ncci).Some?
    ensures FindPlciOf(c, ncci).Some?
    ensures var n := FindNcci(c, ncci).value;
      Owned(c, FindPlciOf(c, ncci).value, n) && c.nccis[n].ncci == ncci && c.nccis[n].state != NOutgoing
  {
    PlciPart(c.contrnr, ncci);
    FoundPlci(c, ncci % WORDS);
    var p := FindPlciOf(c, ncci).value;
    NcciByNumberIs(c, c.plcis[p].nccis, ncci);
    OwnedIs(c, p, FindNcci(c, ncci).value);
  }

  lemma FoundNcciByMsgid(c: Card, ncci: dword, msgid: word)
    requires Inv(c) && NcciAddress(c.contrnr, ncci) && FindNcciByMsgid(c, ncci, msgid).Some?
    ensures FindPlciOf(c, ncci).Some?
    ensures Owned(c, FindPlciOf(c, ncci).value, FindNcciByMsgid(c, ncci, msgid).value)
  {
    PlciPart(c.contrnr, ncci);
    FoundPlci(c, ncci % WORDS);
    var p := FindPlciOf(c, ncci).value;
    NcciByMsgidIs(c, c.plcis[p].nccis, msgid);
    OwnedIs(c, p, FindNcciByMsgid(c, ncci, msgid).value);
  }

  ghost predicate Owned(c: Card, p: PlciPtr, n: NcciPtr) {
    && p in c.plcis && n in c.plcis[p].nccis && n in c.nccis && c.nccis[n].plcip == p
    && c.nccis[n].chan == c.plcis[p].chan && c.plcis[p].chan < |c.bchans|
    && c.plcis[p].state != POutgoing && c.plcis[p].state != PNone && PlciRests(c.plcis[p])
  }

  lemma OwnedIs(c: Card, p: PlciPtr, n: NcciPtr)
    requires Inv(c) && p in c.plcis && n in c.plcis[p].nccis
    ensures Owned(c, p, n) && NcciRests(c.nccis[n])
  {
    assert PlciOk(p, Pl(c.plcis, p), c.list, c.bchans) && LinkOk(p, Pl(c.plcis, p), n, c.nccis);
    assert PlciRests(Pl(c.plcis, p)) && NcciRests(Nc(c.nccis, n));
  }

  // ----- moving a machine -----

  function NextP(s: PlciState, e: PlciEvent): PlciState {
    match PlciNext(s, e)
    case None => s
    case Some((next, _)) => next
  }

  /** The transition calls p0, which frees the PLCI. */
  predicate Frees(s: PlciState, e: PlciEvent) {
    var t := PlciNext(s, e);
    t.Some? && t.value.1
  }

  /** A transition that does not free. */
  lemma MovePlci(c: Card, p: PlciPtr, e: PlciEvent)
    requires Fits(c) && p in c.plcis
    requires var t := PlciNext(c.plcis[p].state, e); t.Some? ==> !t.value.1
    ensures var r := c.plcis[p]; ChangePlci(c, p, e) == c.(plcis := c.plcis[p := r.(state := NextP(r.state, e))])
    ensures Fits(ChangePlci(c, p, e))
  {
    var r := c.plcis[p];
    SetPlci(c, p, r.(state := NextP(r.state, e)));
    assert r.(state := r.state) == r && c.plcis[p := r] == c.plcis;
  }

  /** One that does: the PLCI leaves list, channel and memory. */
  lemma EndPlci(c: Card, p: PlciPtr, e: PlciEvent)
    requires Fits(c) && p in c.plcis
    requires var t := PlciNext(c.plcis[p].state, e); t.Some? && t.value.1
    ensures var d := ChangePlci(c, p, e); Fits(d) && d.plcis == c.plcis - {p} && d.nccis == c.nccis
  {
    var r := c.plcis[p].(state := NextP(c.plcis[p].state, e));
    SetPlci(c, p, r);
    var d := Emit(WithP(c, p, r), Stat(DHUP, r.chan));
    FreePlciFits(d, p);
    assert c.plcis[p := r] - {p} == c.plcis - {p};
  }

  function NextN(x: Ncci, e: NcciEvent): Ncci {
    match NcciNext(x.state, e)
    case None => x
    case Some((next, _)) => x.(oldstate := x.state, state := if next == NPrevious then x.oldstate else next)
  }

  lemma MoveNcci(c: Card, n: NcciPtr, e: NcciEvent)
    requires Fits(c) && n in c.nccis
    requires var t := NcciNext(c.nccis[n].state, e); t.Some? ==> !t.value.1
    ensures ChangeNcci(c, n, e) == c.(nccis := c.nccis[n := NextN(c.nccis[n], e)])
    ensures Fits(ChangeNcci(c, n, e))
  {
    SetNcci(c, n, NextN(c.nccis[n], e));
    assert c.nccis[n := c.nccis[n]] == c.nccis;
  }

  /** n0: the PLCI starts to disconnect, whatever it was, and the NCCI leaves its list, its channel and
      memory. */
  lemma N0Ends(c: Card, p: PlciPtr, n: NcciPtr)
    requires Fits(c) && Owned(c, p, n)
    ensures var d := N0(c, n);
      && Fits(d) && d.nccis == c.nccis - {n}
      && d.plcis == c.plcis[p := c.plcis[p].(state := PDisconnecting, nccis := Remove(c.plcis[p].nccis, n))]
  {
    var d := Numbered(c, DISCONNECT, REQ, c.plcis[p].plci);
    MovePlci(d, p, DisconnectReq);
    FreeNcciFits(Emit(ChangePlci(d, p, DisconnectReq), Stat(BHUP, c.nccis[n].chan)), p, n);
  }

  /** A transition that frees the NCCI. */
  lemma EndNcci(c: Card, p: PlciPtr, n: NcciPtr, e: NcciEvent)
    requires Fits(c) && Owned(c, p, n)
    requires var t := NcciNext(c.nccis[n].state, e); t.Some? && t.value.1
    ensures var d := ChangeNcci(c, n, e);
      && Fits(d) && d.nccis == c.nccis - {n}
      && d.plcis == c.plcis[p := c.plcis[p].(state := PDisconnecting, nccis := Remove(c.plcis[p].nccis, n))]
  {
    var x := NextN(c.nccis[n], e);
    SetNcci(c, n, x);
    N0Ends(WithN(c, n, x), p, n);
    assert c.nccis[n := x] - {n} == c.nccis - {n};
  }

  /** All objects rest once the one that moved does. */
  lemma RestsWithP(c: Card, d: Card, p: PlciPtr, r: Plci)
    requires Rests(c, {}, {}) && d.plcis == c.plcis[p := r] && d.nccis == c.nccis && PlciRests(r)
    ensures Rests(d, {}, {})
  {
    forall q | q in d.plcis ensures PlciRests(Pl(d.plcis, q)) { if q != p { assert PlciRests(Pl(c.plcis, q)); } }
    forall n | n in d.nccis ensures NcciRests(Nc(d.nccis, n)) { assert NcciRests(Nc(c.nccis, n)); }
  }

  lemma RestsWithN(c: Card, d: Card, n: NcciPtr, x: Ncci)
    requires Rests(c, {}, {}) && d.plcis == c.plcis && d.nccis == c.nccis[n := x] && NcciRests(x)
    ensures Rests(d, {}, {})
  {
    forall q | q in d.plcis ensures PlciRests(Pl(d.plcis, q)) { assert PlciRests(Pl(c.plcis, q)); }
    forall m | m in d.nccis ensures NcciRests(Nc(d.nccis, m)) { if m != n { assert NcciRests(Nc(c.nccis, m)); } }
  }

  lemma RestsWithout(c: Card, d: Card)
    requires Rests(c, {}, {})
    requires forall p :: p in d.plcis ==> p in c.plcis && d.plcis[p] == c.plcis[p]
    requires forall n :: n in d.nccis ==> n in c.nccis && d.nccis[n] == c.nccis[n]
    ensures Rests(d, {}, {})
  {
    forall q | q in d.plcis ensures PlciRests(Pl(d.plcis, q)) { assert PlciRests(Pl(c.plcis, q)); }
    forall m | m in d.nccis ensures NcciRests(Nc(d.nccis, m)) { assert NcciRests(Nc(c.nccis, m)); }
  }

  /** An NCCI has ended. */
  lemma RestsEnded(c: Card, d: Card, p: PlciPtr, n: NcciPtr)
    requires Rests(c, {}, {}) && Owned(c, p, n) && d.nccis == c.nccis - {n}
    requires d.plcis == c.plcis[p := c.plcis[p].(state := PDisconnecting, nccis := Remove(c.plcis[p].nccis, n))]
    ensures Rests(d, {}, {})
  {
    RestsWithP(c, c.(plcis := d.plcis), p, d.plcis[p]);
    RestsWithout(c.(plcis := d.plcis), d);
  }

  /** From a resting card only n has changed, and its next transition brings it to rest. */
  lemma NcciArrives(c: Card, d: Card, n: NcciPtr, x: Ncci, e: NcciEvent)
    requires Rests(c, {}, {}) && Fits(d) && d.plcis == c.plcis && d.nccis == c.nccis[n := x]
    requires var t := NcciNext(x.state, e); t.Some? ==> !t.value.1
    requires NcciRests(NextN(x, e))
    ensures Inv(ChangeNcci(d, n, e))
  {
    MoveNcci(d, n, e);
    RestsWithN(c, ChangeNcci(d, n, e), n, NextN(x, e));
  }

  /** Its next transition ends it. */
  lemma NcciEnds(c: Card, d: Card, p: PlciPtr, n: NcciPtr, x: Ncci, e: NcciEvent)
    requires Rests(c, {}, {}) && Fits(d) && d.plcis == c.plcis && d.nccis == c.nccis[n := x]
    requires var t := NcciNext(x.state, e); t.Some? && t.value.1
    requires Owned(c, p, n) && x.plcip == p && x.chan == c.nccis[n].chan && |d.bchans| == |c.bchans|
    ensures Inv(ChangeNcci(d, n, e)) && n !in ChangeNcci(d, n, e).nccis
  {
    EndNcci(d, p, n, e);
    assert c.nccis[n := x] - {n} == c.nccis - {n};
    RestsEnded(c, ChangeNcci(d, n, e), p, n);
  }

  lemma PlciArrives(c: Card, d: Card, p: PlciPtr, r: Plci, e: PlciEvent)
    requires Rests(c, {}, {}) && Fits(d) && d.plcis == c.plcis[p := r] && d.nccis == c.nccis
    requires var t := PlciNext(r.state, e); t.Some? ==> !t.value.1
    requires PlciRests(r.(state := NextP(r.state, e)))
    ensures Inv(ChangePlci(d, p, e))
  {
    MovePlci(d, p, e);
    RestsWithP(c, ChangePlci(d, p, e), p, r.(state := NextP(r.state, e)));
  }

  lemma PlciEnds(c: Card, d: Card, p: PlciPtr, r: Plci, e: PlciEvent)
    requires Rests(c, {}, {}) && Fits(d) && d.plcis == c.plcis[p := r] && d.nccis == c.nccis
    requires var t := PlciNext(r.state, e); t.Some? && t.value.1
    ensures Inv(ChangePlci(d, p, e)) && p !in ChangePlci(d, p, e).plcis
  {
    EndPlci(d, p, e);
    RestsWithout(c, ChangePlci(d, p, e));
  }

  lemma Flagged(c: Card, ch: nat)
    requires Inv(c) && ch < |c.bchans|
    ensures Inv(Disconnecting(c, ch)) && Disconnecting(c, ch).plcis == c.plcis && Disconnecting(c, ch).nccis == c.nccis
    ensures Disconnecting(c, ch).list == c.list
  {
    SetFlags(c, ch, c.bchans[ch].(disconnecting := true));
    RestsWithout(c, Disconnecting(c, ch));
  }

  // ----- messages for PLCIs -----

  lemma KeepDisconnectInd(c: Card, plci: dword)
    requires Inv(c) && plci != 0
    ensures Inv(DoDisconnectInd(c, plci))
    ensures FindPlci(c, plci).Some? ==> FindPlci(c, plci).value !in DoDisconnectInd(c, plci).plcis
  {
    if FindPlci(c, plci).Some? {
      FoundPlci(c, plci);
      var p := FindPlci(c, plci).value;
      var d := Disconnecting(c, c.plcis[p].chan);
      Flagged(c, c.plcis[p].chan);
      Cleared(c, d, p, plci);
    }
  }

  /** The answer follows the transition, and the PLCI ends. */
  lemma Cleared(c: Card, d: Card, p: PlciPtr, plci: dword)
    requires Inv(c) && Fits(d) && d.plcis == c.plcis && d.nccis == c.nccis && p in c.plcis
    requires PlciRests(c.plcis[p]) && c.plcis[p].state != POutgoing
    ensures var e := ChangePlci(Answer(ChangePlci(d, p, DisconnectInd), DISCONNECT, plci), p, DisconnectResp);
      Inv(e) && p !in e.plcis
  {
    MovePlci(d, p, DisconnectInd);
    var r := c.plcis[p].(state := PDisconnected);
    PlciEnds(c, Answer(ChangePlci(d, p, DisconnectInd), DISCONNECT, plci), p, r, DisconnectResp);
  }

  lemma KeepDisconnectConf(c: Card, plci: dword)
    requires Inv(c) && plci != 0
    ensures Inv(DoDisconnectConf(c, plci))
  {
    if FindPlci(c, plci).Some? {
      FoundPlci(c, plci);
      Flagged(c, c.plcis[FindPlci(c, plci).value].chan);
    }
  }

  lemma KeepConnectConf(c: Card, plci: dword, number: word, info: word)
    requires Inv(c) && plci != 0
    ensures Inv(DoConnectConf(c, plci, number, info))
  {
    if PlciByMsgid(c, c.list, number).Some? {
      PlciByMsgidIs(c, c.list, number);
      var p := PlciByMsgid(c, c.list, number).value;
      assert PlciRests(Pl(c.plcis, p));
      var r, e := c.plcis[p].(plci := plci), if info != 0 then ConnectConfError else ConnectConfOk;
      SetPlci(c, p, r);
      if r.state == POutgoing && info != 0 { PlciEnds(c, WithP(c, p, r), p, r, e); }
      else { PlciArrives(c, WithP(c, p, r), p, r, e); }
    }
  }

  /** A new NCCI is live, in front of its PLCI's list, and its PLCI is otherwise as before. */
  lemma Fresh(c: Card, p: PlciPtr, n: NcciPtr, ncci: dword)
    requires Fits(c) && p in c.plcis && n !in c.nccis
    ensures var d := NewNcci(c, p, n, ncci);
      && Fits(d) && d.plcis == c.plcis[p := c.plcis[p].(nccis := [n] + c.plcis[p].nccis)]
      && d.nccis == c.nccis[n := NO_NCCI.(ncci := ncci, plcip := p, chan := c.plcis[p].chan)] && d.list == c.list
  {
    NewNcciFits(c, p, n, ncci);
    assert PlciOk(p, Pl(c.plcis, p), c.list, c.bchans);
  }

  /** A new NCCI has come to rest. */
  lemma RestsNew(c: Card, d: Card, p: PlciPtr, r: Plci, n: NcciPtr, x: Ncci)
    requires Rests(c, {}, {}) && n !in c.nccis && d.plcis == c.plcis[p := r] && d.nccis == c.nccis[n := x]
    requires PlciRests(r) && NcciRests(x)
    ensures Rests(d, {}, {})
  {
    RestsWithP(c, c.(plcis := d.plcis), p, r);
    RestsWithN(c.(plcis := d.plcis), d, n, x);
  }

  lemma ActiveOutgoing(c: Card, p: PlciPtr, n: NcciPtr, plci: dword)
    requires Inv(c) && p in c.plcis && c.plcis[p].plci != 0 && n !in c.nccis && plci < WORDS
    ensures Inv(ChangeNcci(ChangePlci(NewB3(c, p, n, plci), p, ConnectActiveInd), n, B3Req))
  {
    assert PlciRests(Pl(c.plcis, p));
    NewB3Fits(c, p, n, plci);
    var e := NewB3(c, p, n, plci);
    MovePlci(e, p, ConnectActiveInd);
    var f := ChangePlci(e, p, ConnectActiveInd);
    NewArrives(c, f, p, f.plcis[p], n, e.nccis[n], B3Req);
  }

  lemma NewB3Fits(c: Card, p: PlciPtr, n: NcciPtr, plci: dword)
    requires Fits(c) && p in c.plcis && n !in c.nccis
    ensures var e := NewB3(c, p, n, plci);
      && Fits(e) && e.plcis == c.plcis[p := c.plcis[p].(nccis := [n] + c.plcis[p].nccis)]
      && var x := NO_NCCI.(ncci := plci, plcip := p, chan := c.plcis[p].chan, msgid := c.msgid);
         e.nccis == c.nccis[n := x]
  {
    var a := Answer(c, CONNECT_ACTIVE, plci);
    Fresh(a, p, n, plci);
    var d := NewNcci(a, p, n, plci);
    SetNcci(Numbered(d, CONNECT_B3, REQ, Pl(d.plcis, p).plci), n, d.nccis[n].(msgid := c.msgid));
  }

  lemma KeepConnectActiveInd(c: Card, plci: dword, mem: Option<NcciPtr>)
    requires Inv(c) && PlciAddress(c.contrnr, plci) && (mem.Some? ==> mem.value !in c.nccis)
    ensures Inv(DoConnectActiveInd(c, plci, mem))
  {
    if FindPlci(c, plci).Some? {
      FoundPlci(c, plci);
      var p := FindPlci(c, plci).value;
      if c.bchans[c.plcis[p].chan].incoming {
        var d := Answer(c, CONNECT_ACTIVE, plci);
        MovePlci(d, p, ConnectActiveInd);
        RestsWithP(c, ChangePlci(d, p, ConnectActiveInd), p, ChangePlci(d, p, ConnectActiveInd).plcis[p]);
      } else if mem.Some? {
        ActiveOutgoing(c, p, mem.value, plci);
      }
    }
  }

  /** A new NCCI, and its PLCI, have changed from a resting card, and come to rest. */
  lemma NewArrives(c: Card, d: Card, p: PlciPtr, r: Plci, n: NcciPtr, x: Ncci, e: NcciEvent)
    requires Rests(c, {}, {}) && Fits(d) && n !in c.nccis && d.plcis == c.plcis[p := r] && d.nccis == c.nccis[n := x]
    requires var t := NcciNext(x.state, e); t.Some? ==> !t.value.1
    requires PlciRests(r) && NcciRests(NextN(x, e))
    ensures Inv(ChangeNcci(d, n, e))
  {
    MoveNcci(d, n, e);
    RestsNew(c, ChangeNcci(d, n, e), p, r, n, NextN(x, e));
  }

  // ----- messages for NCCIs -----

  lemma KeepB3ActiveInd(c: Card, ncci: dword)
    requires Inv(c) && NcciAddress(c.contrnr, ncci)
    ensures Inv(DoB3ActiveInd(c, ncci))
  {
    if FindNcci(c, ncci).Some? {
      FoundNcci(c, ncci);
      var p, n := FindPlciOf(c, ncci).value, FindNcci(c, ncci).value;
      OwnedIs(c, p, n);
      var d, x := Answer(c, CONNECT_B3_ACTIVE, ncci), c.nccis[n].(up := true);
      SetNcci(d, n, x);
      NcciArrives(c, WithN(d, n, x), n, x, B3ActiveInd);
    }
  }

  lemma IncomingB3(c: Card, p: PlciPtr, n: NcciPtr, ncci: dword)
    requires Inv(c) && p in c.plcis && PlciRests(c.plcis[p]) && c.plcis[p].state != POutgoing && n !in c.nccis
    requires ncci >= WORDS
    ensures var d := ChangeNcci(NewNcci(c, p, n, ncci), n, B3Ind);
      Inv(ChangeNcci(Numbered(d, CONNECT_B3, RESP, ncci), n, B3Resp))
  {
    Fresh(c, p, n, ncci);
    var d := NewNcci(c, p, n, ncci);
    MoveNcci(d, n, B3Ind);
    var x := NextN(d.nccis[n], B3Ind);
    NewArrives(c, Numbered(ChangeNcci(d, n, B3Ind), CONNECT_B3, RESP, ncci), p, d.plcis[p], n, x, B3Resp);
  }

  lemma KeepB3Ind(c: Card, ncci: dword, mem: Option<NcciPtr>)
    requires Inv(c) && NcciAddress(c.contrnr, ncci) && (mem.Some? ==> mem.value !in c.nccis)
    ensures Inv(DoB3Ind(c, ncci, mem))
  {
    if FindPlciOf(c, ncci).Some? && mem.Some? {
      PlciPart(c.contrnr, ncci);
      FoundPlci(c, ncci % WORDS);
      IncomingB3(c, FindPlciOf(c, ncci).value, mem.value, ncci);
    }
  }

  lemma KeepB3Conf(c: Card, ncci: dword, number: word, info: word)
    requires Inv(c) && NcciAddress(c.contrnr, ncci)
    ensures Inv(DoB3Conf(c, ncci, number, info))
  {
    if FindNcciByMsgid(c, ncci, number).Some? {
      FoundNcciByMsgid(c, ncci, number);
      var p, n := FindPlciOf(c, ncci).value, FindNcciByMsgid(c, ncci, number).value;
      OwnedIs(c, p, n);
      Numbers(c, p, n, ncci, if info != 0 then B3ConfError else B3ConfOk);
    }
  }

  /** An NCCI that gets a number stops being outgoing. */
  lemma Numbers(c: Card, p: PlciPtr, n: NcciPtr, ncci: dword, e: NcciEvent)
    requires Inv(c) && Owned(c, p, n) && NcciRests(c.nccis[n]) && ncci >= WORDS && (e == B3ConfError || e == B3ConfOk)
    ensures Inv(ChangeNcci(WithN(c, n, Nc(c.nccis, n).(ncci := ncci)), n, e))
  {
    var x := c.nccis[n].(ncci := ncci);
    SetNcci(c, n, x);
    if x.state == NOutgoing && e == B3ConfError { NcciEnds(c, WithN(c, n, x), p, n, x, e); }
    else { NcciArrives(c, WithN(c, n, x), n, x, e); }
  }

  lemma KeepDataB3Conf(c: Card, ncci: dword, handle: word)
    requires Inv(c) && NcciAddress(c.contrnr, ncci)
    ensures Inv(DoDataB3Conf(c, ncci, handle))
  {
    if FindNcci(c, ncci).Some? {
      FoundNcci(c, ncci);
      var n := FindNcci(c, ncci).value;
      OwnedIs(c, FindPlciOf(c, ncci).value, n);
      var x := c.nccis[n].(acks := Del(c.nccis[n].acks, handle));
      if x.near { DelCurrent(c.nccis[n].acks, x.sends, handle); }
      SetNcci(c, n, x);
      RestsWithN(c, WithN(c, n, x), n, x);
    }
  }

  /** The NCCI that is found ends. */
  lemma KeepB3DisconnectInd(c: Card, ncci: dword)
    requires Inv(c) && NcciAddress(c.contrnr, ncci)
    ensures Inv(DoB3DisconnectInd(c, ncci))
    ensures FindNcci(c, ncci).Some? ==> FindNcci(c, ncci).value !in DoB3DisconnectInd(c, ncci).nccis
  {
    if FindNcci(c, ncci).Some? {
      FoundNcci(c, ncci);
      var p, n := FindPlciOf(c, ncci).value, FindNcci(c, ncci).value;
      OwnedIs(c, p, n);
      var d := Disconnecting(c, c.nccis[n].chan);
      Flagged(c, c.nccis[n].chan);
      DisconnectedNcci(d, p, n, ncci);
    }
  }

  /** The answer follows the transition. */
  lemma DisconnectedNcci(d: Card, p: PlciPtr, n: NcciPtr, ncci: dword)
    requires Inv(d) && Owned(d, p, n) && NcciRests(d.nccis[n]) && d.nccis[n].state != NOutgoing
    ensures var e := ChangeNcci(Answer(ChangeNcci(d, n, B3DisconnectInd), DISCONNECT_B3, ncci), n, B3DisconnectResp);
      Inv(e) && n !in e.nccis
  {
    MoveNcci(d, n, B3DisconnectInd);
    var x := NextN(d.nccis[n], B3DisconnectInd);
    NcciEnds(d, Answer(ChangeNcci(d, n, B3DisconnectInd), DISCONNECT_B3, ncci), p, n, x, B3DisconnectResp);
  }

  lemma KeepB3DisconnectConf(c: Card, ncci: dword, info: word)
    requires Inv(c) && NcciAddress(c.contrnr, ncci)
    ensures Inv(DoB3DisconnectConf(c, ncci, info))
  {
    if FindNcci(c, ncci).Some? && info != 0 {
      FoundNcci(c, ncci);
      MoveResting(c, FindPlciOf(c, ncci).value, FindNcci(c, ncci).value, B3DisconnectConfError);
    }
  }

  lemma KeepResetB3Ind(c: Card, ncci: dword)
    requires Inv(c) && NcciAddress(c.contrnr, ncci)
    ensures Inv(DoResetB3Ind(c, ncci))
  {
    if FindNcci(c, ncci).Some? {
      FoundNcci(c, ncci);
      MoveResting(c, FindPlciOf(c, ncci).value, FindNcci(c, ncci).value, ResetInd);
    }
  }

  lemma MoveResting(c: Card, p: PlciPtr, n: NcciPtr, e: NcciEvent)
    requires Inv(c) && Owned(c, p, n) && (e == ResetInd || e == B3DisconnectConfError)
    ensures Inv(ChangeNcci(c, n, e))
  {
    OwnedIs(c, p, n);
    MoveNcci(c, n, e);
    RestsWithN(c, ChangeNcci(c, n, e), n, NextN(c.nccis[n], e));
  }

  // ----- commands -----

  lemma KeepDial(c: Card, arg: nat, mem: Option<PlciPtr>)
    requires Inv(c) && |c.bchans| > 0 && (mem.Some? ==> mem.value !in c.plcis)
    ensures Inv(DoDial(c, arg, mem))
  {
    var ch := Channel(c, arg);
    if c.bchans[ch].plcip == None && mem.Some? {
      var p := mem.value;
      var n := NextNumber(c);
      NewPlciFits(n, ch, p);
      var d, r := NewPlci(n, ch, p), NewPlciAt(ch).(msgid := c.msgid);
      SetPlci(d, p, r);
      var e := WithP(d, p, r);
      MovePlci(e, p, ConnectReq);
      RestsAdded(c, ChangePlci(e, p, ConnectReq), p, r.(state := POutgoing));
    }
  }

  lemma RestsAdded(c: Card, d: Card, p: PlciPtr, r: Plci)
    requires Rests(c, {}, {}) && d.plcis == c.plcis[p := r] && d.nccis == c.nccis && PlciRests(r)
    ensures Rests(d, {}, {})
  {
    RestsWithP(c, d, p, r);
  }

  lemma KeepAccept(c: Card, arg: nat)
    requires Inv(c) && |c.bchans| > 0 && Ch(c.bchans, Channel(c, arg)).plcip.Some?
    ensures Inv(DoAccept(c, arg)) && Same(c, DoAccept(c, arg))
  {
    var ch := Channel(c, arg);
    assert ChanOk(ch, Ch(c.bchans, ch), c.plcis, c.nccis, c.polite);
    var p := c.bchans[ch].plcip.value;
    assert PlciRests(Pl(c.plcis, p));
    var d := NextNumber(c);
    MovePlci(d, p, ConnectResp);
    RestsWithP(c, ChangePlci(d, p, ConnectResp), p, ChangePlci(d, p, ConnectResp).plcis[p]);
  }

  /** No PLCI comes or goes, and none changes its place, number or message number. */
  ghost predicate Same(c: Card, d: Card) {
    && d.plcis.Keys == c.plcis.Keys && |d.bchans| == |c.bchans| && d.list == c.list
    && (forall ch :: 0 <= ch < |c.bchans| ==> d.bchans[ch].plcip == c.bchans[ch].plcip)
    && forall p :: p in c.plcis ==> d.plcis[p].chan == c.plcis[p].chan && d.plcis[p].plci == c.plcis[p].plci
                                    && d.plcis[p].nccis == c.plcis[p].nccis
  }

  lemma KeepHangupNcci(c: Card, ch: nat, n: NcciPtr)
    requires Inv(c) && ch < |c.bchans| && c.bchans[ch].nccip == Some(n)
    ensures Inv(HangupNcci(c, ch, n)) && Same(c, HangupNcci(c, ch, n))
  {
    assert ChanOk(ch, Ch(c.bchans, ch), c.plcis, c.nccis, c.polite);
    assert NcciRests(Nc(c.nccis, n));
    Flagged(c, ch);
    var d := NextNumber(Disconnecting(c, ch));
    MoveNcci(d, n, B3DisconnectReq);
    RestsWithN(c, ChangeNcci(d, n, B3DisconnectReq), n, NextN(c.nccis[n], B3DisconnectReq));
  }

  lemma KeepHangupPlci(c: Card, ch: nat, p: PlciPtr)
    requires Inv(c) && ch < |c.bchans| && c.bchans[ch].plcip == Some(p)
    ensures Inv(HangupPlci(c, ch, p)) && Same(c, HangupPlci(c, ch, p))
  {
    assert ChanOk(ch, Ch(c.bchans, ch), c.plcis, c.nccis, c.polite);
    assert PlciRests(Pl(c.plcis, p));
    Flagged(c, ch);
    if c.plcis[p].state != PIncoming && c.plcis[p].plci != 0 {
      var d := NextNumber(Disconnecting(c, ch));
      MovePlci(d, p, DisconnectReq);
      RestsWithP(c, ChangePlci(d, p, DisconnectReq), p, c.plcis[p].(state := PDisconnecting));
    }
  }

  lemma KeepHangup(c: Card, arg: nat)
    requires Inv(c) && |c.bchans| > 0
    ensures Inv(DoHangup(c, arg)) && Same(c, DoHangup(c, arg))
  {
    var ch := Channel(c, arg);
    var b := c.bchans[ch];
    if !b.disconnecting {
      if b.nccip.Some? { KeepHangupNcci(c, ch, b.nccip.value); }
      else if b.plcip.Some? { KeepHangupPlci(c, ch, b.plcip.value); }
    }
  }

  /** The acknowledgement queue stays in order, and the handle counter counts the sends. */
  lemma SendingRests(x: Ncci, doack: bool, len: nat, a: SendAnswer)
    requires NcciRests(x)
    ensures NcciRests(Sending(x, doack, len, a))
  {
    var what := if doack then len as int else -1;
    if a != NoAckMemory && x.near && Near(x.acks, x.sends) {
      AddCurrent(x.acks, x.sends, what);
      NextUnused(x.acks, x.sends);
      TakenBack(x.acks, x.sends, what);
    }
  }

  lemma KeepSendBuf(c: Card, arg: nat, doack: bool, len: nat, a: SendAnswer)
    requires Inv(c) && |c.bchans| > 0
    ensures Inv(DoSendBuf(c, arg, doack, len, a))
  {
    var ch := Channel(c, arg);
    assert ChanOk(ch, Ch(c.bchans, ch), c.plcis, c.nccis, c.polite);
    if c.bchans[ch].nccip.Some? {
      var n := c.bchans[ch].nccip.value;
      assert NcciRests(Nc(c.nccis, n));
      SendingRests(c.nccis[n], doack, len, a);
      var x := Sending(c.nccis[n], doack, len, a);
      SetNcci(NextNumber(c), n, x);
      RestsWithN(c, WithN(NextNumber(c), n, x), n, x);
    }
  }

  // ----- incoming calls -----

  /** What the ISDN layer may do from within its ICALL callback: accept a call or hang up. */
  ghost predicate CallsOk(c: Card, calls: seq<Command>) {
    forall i :: 0 <= i < |calls| ==>
      calls[i].Hangup? || (calls[i].Accept? && Ch(c.bchans, Channel(c, calls[i].arg)).plcip.Some?)
  }

  lemma {:induction false} KeepCalls(c: Card, calls: seq<Command>)
    requires Inv(c) && |c.bchans| > 0 && CallsOk(c, calls)
    ensures Inv(RunCalls(c, calls)) && Same(c, RunCalls(c, calls))
    decreases |calls|
  {
    if calls != [] {
      if calls[0].Hangup? { KeepHangup(c, calls[0].arg); } else { KeepAccept(c, calls[0].arg); }
      var d, rest := DoCommand(c, calls[0]), calls[1..];
      assert CallsOk(d, rest) by {
        forall i | 0 <= i < |rest|
          ensures rest[i].Hangup? || (rest[i].Accept? && Ch(d.bchans, Channel(d, rest[i].arg)).plcip.Some?)
        {
          assert rest[i] == calls[i + 1];
        }
      }
      KeepCalls(d, rest);
    }
  }

  lemma KeepRinging(c: Card, ch: nat, p: PlciPtr, plci: dword)
    requires Inv(c) && ch < |c.bchans| && c.bchans[ch].plcip == None && p !in c.plcis && plci != 0
    ensures var d := Ringing(c, ch, p, plci);
      Inv(d) && p in d.plcis && d.plcis[p].plci == plci && |d.bchans| == |c.bchans|
  {
    NewPlciFits(c, ch, p);
    var d := NewPlci(c, ch, p);
    SetFlags(d, ch, d.bchans[ch].(incoming := true));
    var e, r := WithB(d, ch, d.bchans[ch].(incoming := true)), NewPlciAt(ch).(plci := plci);
    SetPlci(e, p, r);
    PlciArrives(c, WithP(e, p, r), p, r, ConnectInd);
    MovePlci(WithP(e, p, r), p, ConnectInd);
  }

  lemma KeepJudge(c: Card, p: PlciPtr, plci: dword, verdict: int)
    requires Inv(c) && p in c.plcis && c.plcis[p].plci != 0
    ensures Inv(Judge(c, p, plci, verdict))
  {
    var r := c.plcis[p];
    assert PlciRests(Pl(c.plcis, p));
    if verdict != 1 {
      PlciArrives(c, Turned(c, plci, verdict), p, r, ConnectReject);
    } else if r.state == PIncoming {
      var d, q := NextNumber(c), r.(msgid := c.msgid);
      SetPlci(d, p, q);
      RestsWithP(c, WithP(d, p, q), p, q);
    }
  }

  /** The channel an incoming call is put on, its flag cleared. */
  function Chosen(c: Card, ch: nat): Card { WithB(c, ch, Ch(c.bchans, ch).(disconnecting := false)) }

  lemma KeepConnectInd(c: Card, plci: dword, mem: Option<PlciPtr>, calls: seq<Command>, verdict: int)
    requires Inv(c) && plci != 0 && (mem.Some? ==> mem.value !in c.plcis)
    requires var ch := FreeChannel(c.bchans, 0);
      ch < |c.bchans| && mem.Some? ==>
        CallsOk(Emit(Ringing(Chosen(c, ch), ch, mem.value, plci), Stat(ICALL, ch)), calls)
    ensures Inv(DoConnectInd(c, plci, mem, calls, verdict))
  {
    var ch := FreeChannel(c.bchans, 0);
    if ch < |c.bchans| {
      SetFlags(c, ch, c.bchans[ch].(disconnecting := false));
      RestsWithout(c, Chosen(c, ch));
      if mem.Some? {
        var p := mem.value;
        KeepRinging(Chosen(c, ch), ch, p, plci);
        var d := Emit(Ringing(Chosen(c, ch), ch, p, plci), Stat(ICALL, ch));
        KeepCalls(d, calls);
        KeepJudge(RunCalls(d, calls), p, plci, verdict);
      }
    }
  }
}
