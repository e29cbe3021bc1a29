/** What each message and each command achieves: where the PLCI and the NCCI are afterwards, what has been sent
    and what the ISDN layer has been told; and that nothing happens when there is nothing to be found. */
module CallEffects {
  import opened Wire
  import opened Programs
  import opened AckQueue
  import opened CallControl
  import opened CallInvariant
  import opened CallSteps
  import opened CallRuns

  lemma SetTwice<K, V>(m: map<K, V>, k: K, v: V, w: V)
    ensures m[k := v][k := w] == m[k := w]
  {
  }

  lemma SetTwiceAt<V>(s: seq<V>, k: nat, v: V, w: V)
    requires k < |s|
    ensures s[k := v][k := w] == s[k := w]
  {
  }

  // ----- lookup -----

  /** k is the first place that hits. */
  predicate FirstHit(k: nat, hits: seq<bool>) { k < |hits| && hits[k] && true !in hits[..k] }

  function PlciHits(c: Card, list: seq<PlciPtr>, plci: dword): seq<bool> {
    seq(|list|, i requires 0 <= i < |list| => Pl(c.plcis, list[i]).plci == plci)
  }

  function PlciMsgidHits(c: Card, list: seq<PlciPtr>, msgid: word): seq<bool> {
    seq(|list|, i requires 0 <= i < |list| => Pl(c.plcis, list[i]).msgid == msgid)
  }

  function NcciHits(c: Card, list: seq<NcciPtr>, ncci: dword): seq<bool> {
    seq(|list|, i requires 0 <= i < |list| => Nc(c.nccis, list[i]).ncci == ncci)
  }

  function NcciMsgidHits(c: Card, list: seq<NcciPtr>, msgid: word): seq<bool> {
    seq(|list|, i requires 0 <= i < |list| => Nc(c.nccis, list[i]).msgid == msgid)
  }

  /** r is what stands at the first place that hits, and None if there is no such place. */
  ghost predicate Finds(r: Option<nat>, list: seq<nat>, hits: seq<bool>)
    requires |hits| == |list|
  {
    if r.None? then true !in hits else exists k: nat :: FirstHit(k, hits) && list[k] == r.value
  }

  lemma FindsNext(r: Option<nat>, list: seq<nat>, hits: seq<bool>)
    requires |hits| == |list| && list != []
    requires if hits[0] then r == Some(list[0]) else Finds(r, list[1..], hits[1..])
    ensures Finds(r, list, hits)
  {
    if hits[0] {
      assert FirstHit(0, hits);
    } else if r.Some? {
      var k: nat :| FirstHit(k, hits[1..]) && list[1..][k] == r.value;
      assert hits[..k + 1] == [false] + hits[1..][..k];
      assert FirstHit(k + 1, hits) && list[k + 1] == r.value;
    } else {
      assert hits == [false] + hits[1..];
    }
  }

  /** Each lookup gives the first object of the list with the number asked for, and None exactly if no object
      has it. */
  lemma {:induction false} PlciByNumberFirst(c: Card, list: seq<PlciPtr>, plci: dword)
    ensures Finds(PlciByNumber(c, list, plci), list, PlciHits(c, list, plci))
  {
    if list != [] {
      PlciByNumberFirst(c, list[1..], plci);
      assert PlciHits(c, list, plci)[1..] == PlciHits(c, list[1..], plci);
      FindsNext(PlciByNumber(c, list, plci), list, PlciHits(c, list, plci));
    }
  }

  lemma {:induction false} PlciByMsgidFirst(c: Card, list: seq<PlciPtr>, msgid: word)
    ensures Finds(PlciByMsgid(c, list, msgid), list, PlciMsgidHits(c, list, msgid))
  {
    if list != [] {
      PlciByMsgidFirst(c, list[1..], msgid);
      assert PlciMsgidHits(c, list, msgid)[1..] == PlciMsgidHits(c, list[1..], msgid);
      FindsNext(PlciByMsgid(c, list, msgid), list, PlciMsgidHits(c, list, msgid));
    }
  }

  lemma {:induction false} NcciByNumberFirst(c: Card, list: seq<NcciPtr>, ncci: dword)
    ensures Finds(NcciByNumber(c, list, ncci), list, NcciHits(c, list, ncci))
  {
    if list != [] {
      NcciByNumberFirst(c, list[1..], ncci);
      assert NcciHits(c, list, ncci)[1..] == NcciHits(c, list[1..], ncci);
      FindsNext(NcciByNumber(c, list, ncci), list, NcciHits(c, list, ncci));
    }
  }

  lemma {:induction false} NcciByMsgidFirst(c: Card, list: seq<NcciPtr>, msgid: word)
    ensures Finds(NcciByMsgid(c, list, msgid), list, NcciMsgidHits(c, list, msgid))
  {
    if list != [] {
      NcciByMsgidFirst(c, list[1..], msgid);
      assert NcciMsgidHits(c, list, msgid)[1..] == NcciMsgidHits(c, list[1..], msgid);
      FindsNext(NcciByMsgid(c, list, msgid), list, NcciMsgidHits(c, list, msgid));
    }
  }

  /** An NCCI is found among those of the PLCI with its low word. */
  lemma FindNcciIs(c: Card, ncci: dword, msgid: word, p: PlciPtr)
    requires FindPlciOf(c, ncci) == Some(p)
    ensures var list := Pl(c.plcis, p).nccis;
      && Finds(FindNcci(c, ncci), list, NcciHits(c, list, ncci))
      && Finds(FindNcciByMsgid(c, ncci, msgid), list, NcciMsgidHits(c, list, msgid))
  {
    NcciByNumberFirst(c, Pl(c.plcis, p).nccis, ncci);
    NcciByMsgidFirst(c, Pl(c.plcis, p).nccis, msgid);
  }

  // ----- transitions that free -----

  /** A PLCI that is freed leaves memory, list and channel, the flags of the channel are cleared, and the ISDN
      layer is told that the D channel is down. */
  predicate Gone(c: Card, d: Card, p: PlciPtr, ch: nat, sent: seq<Out>) {
    && ch < |c.bchans| && d.plcis == c.plcis - {p} && d.nccis == c.nccis && d.list == Remove(c.list, p)
    && d.bchans == c.bchans[ch := Bchan(None, c.bchans[ch].nccip, false, false)]
    && d.out == c.out + sent + [Stat(DHUP, ch)]
  }

  lemma PlciGoes(c: Card, p: PlciPtr, e: PlciEvent)
    requires p in c.plcis && p in c.list && c.plcis[p].chan < |c.bchans| && Frees(c.plcis[p].state, e)
    ensures Gone(c, ChangePlci(c, p, e), p, c.plcis[p].chan, [])
  {
    assert c.plcis[p := c.plcis[p].(state := NextP(c.plcis[p].state, e))] - {p} == c.plcis - {p};
    assert c.out + [] == c.out;
  }

  /** An NCCI that is freed leaves memory, its PLCI, which starts to disconnect, and its channel. */
  predicate Ended(c: Card, d: Card, p: PlciPtr, n: NcciPtr, sent: seq<Out>)
    requires p in c.plcis && n in c.nccis
  {
    var (r, ch) := (c.plcis[p], c.nccis[n].chan);
    && ch < |c.bchans| && n !in d.nccis && d.nccis == c.nccis - {n} && d.list == c.list
    && d.plcis == c.plcis[p := r.(state := PDisconnecting, nccis := Remove(r.nccis, n))]
    && d.bchans == c.bchans[ch := c.bchans[ch].(nccip := None)]
    && d.out == c.out + sent + [Send(DISCONNECT, REQ, r.plci, Some(c.msgid)), Stat(BHUP, ch)]
  }

  lemma PlciDisconnects(c: Card, p: PlciPtr)
    requires p in c.plcis && c.plcis[p].state != POutgoing && PlciRests(c.plcis[p])
    ensures ChangePlci(c, p, DisconnectReq) == c.(plcis := c.plcis[p := c.plcis[p].(state := PDisconnecting)])
  {
    assert c.plcis[p := c.plcis[p]] == c.plcis;
  }

  lemma FreeNcciEnds(c: Card, p: PlciPtr, n: NcciPtr)
    requires p in c.plcis && n in c.nccis && c.nccis[n].plcip == p && c.nccis[n].chan < |c.bchans|
    ensures var (r, ch) := (c.plcis[p], c.nccis[n].chan);
      FreeNcci(c, n) == c.(nccis := c.nccis - {n}, plcis := c.plcis[p := r.(nccis := Remove(r.nccis, n))],
                           bchans := c.bchans[ch := c.bchans[ch].(nccip := None)])
  {
  }

  lemma N0Goes(c: Card, p: PlciPtr, n: NcciPtr)
    requires Owned(c, p, n)
    ensures Ended(c, N0(c, n), p, n, [])
  {
    var r, x := c.plcis[p], c.nccis[n];
    var d := Numbered(UseP(UseN(c, n), p), DISCONNECT, REQ, r.plci);
    var s := r.(state := PDisconnecting);
    PlciDisconnects(d, p);
    FreeNcciEnds(Emit(ChangePlci(d, p, DisconnectReq), Stat(BHUP, x.chan)), p, n);
    SetTwice(c.plcis, p, s, s.(nccis := Remove(r.nccis, n)));
    assert c.out + [] == c.out;
  }

  lemma NcciGoes(c: Card, p: PlciPtr, n: NcciPtr, e: NcciEvent)
    requires Owned(c, p, n)
    requires var t := NcciNext(c.nccis[n].state, e); t.Some? && t.value.1
    ensures Ended(c, ChangeNcci(c, n, e), p, n, [])
  {
    var x := NextN(c.nccis[n], e);
    var d := WithN(c, n, x);
    N0Goes(d, p, n);
    assert c.nccis[n := x] - {n} == c.nccis - {n};
  }

  // ----- messages for PLCIs -----

  /** DISCONNECT_IND ends the PLCI it finds, after an answer; it is answered in any case. */
  lemma DisconnectIndEffect(c: Card, plci: dword)
    requires Inv(c) && PlciAddress(c.contrnr, plci)
    ensures var (q, d) := (FindPlci(c, plci), Receive(c, DisconnectIndMsg(plci)));
      if q.None? then d == c.(out := c.out + [Send(DISCONNECT, RESP, plci, None)])
      else q.value in c.plcis && Gone(c, d, q.value, c.plcis[q.value].chan, [Send(DISCONNECT, RESP, plci, None)])
  {
    if FindPlci(c, plci).Some? {
      FoundPlci(c, plci);
      var p := FindPlci(c, plci).value;
      Flagged(c, c.plcis[p].chan);
      var d := Disconnecting(c, c.plcis[p].chan);
      MovePlci(d, p, DisconnectInd);
      DisconnectGoes(c, d, p, plci);
    }
  }

  lemma DisconnectGoes(c: Card, d: Card, p: PlciPtr, plci: dword)
    requires p in c.plcis && p in c.list && c.plcis[p].chan < |c.bchans|
    requires d == Disconnecting(c, c.plcis[p].chan)
    requires ChangePlci(d, p, DisconnectInd) == d.(plcis := d.plcis[p := d.plcis[p].(state := PDisconnected)])
    ensures var e := Answer(ChangePlci(d, p, DisconnectInd), DISCONNECT, plci);
      Gone(c, ChangePlci(e, p, DisconnectResp), p, c.plcis[p].chan, [Send(DISCONNECT, RESP, plci, None)])
  {
    var e := Answer(ChangePlci(d, p, DisconnectInd), DISCONNECT, plci);
    PlciGoes(e, p, DisconnectResp);
    assert e.plcis - {p} == c.plcis - {p};
  }

  /** DISCONNECT_CONF flags the channel. */
  lemma DisconnectConfEffect(c: Card, plci: dword)
    requires Inv(c) && PlciAddress(c.contrnr, plci)
    ensures var (q, d) := (FindPlci(c, plci), Receive(c, DisconnectConfMsg(plci)));
      if q.None? then d == c
      else
        && q.value in c.plcis && c.plcis[q.value].chan < |c.bchans|
        && var ch := c.plcis[q.value].chan;
           d == c.(bchans := c.bchans[ch := c.bchans[ch].(disconnecting := true)])
  {
    if FindPlci(c, plci).Some? { FoundPlci(c, plci); }
  }

  /** CONNECT_CONF gives an outgoing PLCI, found by the number of the request, its address; a refusal ends it
      instead.  It has no effect on the state of any other PLCI. */
  lemma ConnectConfEffect(c: Card, plci: dword, number: word, info: word)
    requires Inv(c) && PlciAddress(c.contrnr, plci)
    ensures var (q, d) := (PlciByMsgid(c, c.list, number), Receive(c, ConnectConfMsg(plci, number, info)));
      if q.None? then d == c
      else
        && q.value in c.plcis
        && var r := c.plcis[q.value];
           if r.state != POutgoing then d == c.(plcis := c.plcis[q.value := r.(plci := plci)])
           else if info == 0 then d == c.(plcis := c.plcis[q.value := r.(plci := plci, state := PAllocated)])
           else Gone(c, d, q.value, r.chan, [])
  {
    if PlciByMsgid(c, c.list, number).Some? {
      PlciByMsgidIs(c, c.list, number);
      var p := PlciByMsgid(c, c.list, number).value;
      assert PlciOk(p, Pl(c.plcis, p), c.list, c.bchans) && PlciRests(Pl(c.plcis, p));
      ConnectConfGoes(c, p, plci, if info != 0 then ConnectConfError else ConnectConfOk);
    }
  }

  lemma ConnectConfGoes(c: Card, p: PlciPtr, plci: dword, e: PlciEvent)
    requires !c.bad && p in c.plcis && p in c.list && c.plcis[p].chan < |c.bchans| && PlciRests(c.plcis[p])
    requires e == ConnectConfError || e == ConnectConfOk
    ensures var (r, d) := (c.plcis[p], ChangePlci(WithP(c, p, Pl(c.plcis, p).(plci := plci)), p, e));
      if r.state != POutgoing then d == c.(plcis := c.plcis[p := r.(plci := plci)])
      else if e == ConnectConfOk then d == c.(plcis := c.plcis[p := r.(plci := plci, state := PAllocated)])
      else Gone(c, d, p, r.chan, [])
  {
    var r := c.plcis[p].(plci := plci);
    var d := WithP(c, p, r);
    if r.state == POutgoing && e == ConnectConfError {
      PlciGoes(d, p, e);
      assert d.plcis - {p} == c.plcis - {p};
    } else if r.state == POutgoing {
      assert c.plcis[p := r][p := r.(state := PAllocated)] == c.plcis[p := r.(state := PAllocated)];
    }
  }

  /** The state of a PLCI when CONNECT_ACTIVE_IND has come. */
  function Activated(s: PlciState): PlciState { if s == PAllocated || s == PAccepting then PActive else s }

  /** CONNECT_ACTIVE_IND is answered; on the channel of an incoming call that is all but for the state, and on
      another it also asks for an NCCI, under a number by which CONNECT_B3_CONF will find the new object. */
  lemma ConnectActiveIndEffect(c: Card, plci: dword, mem: Option<NcciPtr>)
    requires Inv(c) && PlciAddress(c.contrnr, plci) && (mem.Some? ==> mem.value !in c.nccis)
    ensures var (q, d) := (FindPlci(c, plci), Receive(c, ConnectActiveIndMsg(plci, mem)));
      var answer := Send(CONNECT_ACTIVE, RESP, plci, None);
      if q.None? then d == c
      else
        && q.value in c.plcis && c.plcis[q.value].chan < |c.bchans|
        && var (p, r) := (q.value, c.plcis[q.value]);
           if c.bchans[r.chan].incoming then
             d == c.(plcis := c.plcis[p := r.(state := Activated(r.state))], out := c.out + [answer])
           else if mem.None? then d == c.(out := c.out + [answer])
           else
             && AsksB3(c, d, p, mem.value)
             && d.out == c.out + [answer, Send(CONNECT_B3, REQ, plci, Some(c.msgid)), Stat(DCONN, r.chan)]
  {
    if FindPlci(c, plci).Some? {
      FoundPlci(c, plci);
      var p := FindPlci(c, plci).value;
      if c.bchans[c.plcis[p].chan].incoming {
        MovePlci(Answer(c, CONNECT_ACTIVE, plci), p, ConnectActiveInd);
      } else if mem.Some? {
        ActiveOutgoingEffect(c, p, mem.value, plci);
      }
    }
  }

  /** The new NCCI is outgoing, belongs to p and its channel, and carries the number of the request. */
  predicate AsksB3(c: Card, d: Card, p: PlciPtr, n: NcciPtr)
    requires p in c.plcis && c.plcis[p].chan < |c.bchans|
  {
    var r := c.plcis[p];
    var x := NO_NCCI.(ncci := r.plci, msgid := c.msgid, chan := r.chan, state := NOutgoing, plcip := p);
    && d.plcis == c.plcis[p := r.(state := Activated(r.state), nccis := [n] + r.nccis)]
    && d.nccis == c.nccis[n := x]
    && d.bchans == c.bchans[r.chan := c.bchans[r.chan].(nccip := Some(n))] && d.list == c.list
  }

  lemma ActiveOutgoingEffect(c: Card, p: PlciPtr, n: NcciPtr, plci: dword)
    requires Inv(c) && p in c.plcis && c.plcis[p].plci == plci && plci != 0 && n !in c.nccis
    requires c.plcis[p].chan < |c.bchans|
    ensures var d := ChangeNcci(ChangePlci(NewB3(c, p, n, plci), p, ConnectActiveInd), n, B3Req);
      && AsksB3(c, d, p, n)
      && d.out == c.out + [Send(CONNECT_ACTIVE, RESP, plci, None), Send(CONNECT_B3, REQ, plci, Some(c.msgid)),
                           Stat(DCONN, c.plcis[p].chan)]
  {
    assert PlciRests(Pl(c.plcis, p));
    NewB3Fits(c, p, n, plci);
    NewB3Sends(c, p, n, plci);
    var e := NewB3(c, p, n, plci);
    MovePlci(e, p, ConnectActiveInd);
    var f := ChangePlci(e, p, ConnectActiveInd);
    MoveNcci(f, n, B3Req);
    SetTwice(c.plcis, p, e.plcis[p], f.plcis[p]);
    SetTwice(c.nccis, n, e.nccis[n], NextN(e.nccis[n], B3Req));
  }

  lemma NewB3Sends(c: Card, p: PlciPtr, n: NcciPtr, plci: dword)
    requires p in c.plcis && c.plcis[p].plci == plci && n !in c.nccis && c.plcis[p].chan < |c.bchans|
    ensures var (d, ch) := (NewB3(c, p, n, plci), c.plcis[p].chan);
      && d.out == c.out + [Send(CONNECT_ACTIVE, RESP, plci, None), Send(CONNECT_B3, REQ, plci, Some(c.msgid)),
                           Stat(DCONN, ch)]
      && d.bchans == c.bchans[ch := c.bchans[ch].(nccip := Some(n))] && d.list == c.list
  {
  }

  /** That number finds it: it is the first NCCI of its PLCI, and an NCCI belongs to the PLCI of its low word. */
  lemma AskedFound(c: Card, d: Card, p: PlciPtr, n: NcciPtr, ncci: dword)
    requires p in c.plcis && c.plcis[p].chan < |c.bchans| && AsksB3(c, d, p, n)
    requires FindPlci(c, ncci % WORDS) == Some(p)
    ensures FindNcciByMsgid(d, ncci, c.msgid) == Some(n)
  {
    SameNumbers(c, d, c.list, ncci % WORDS);
  }

  lemma {:induction false} SameNumbers(c: Card, d: Card, list: seq<PlciPtr>, plci: dword)
    requires forall p :: Pl(d.plcis, p).plci == Pl(c.plcis, p).plci
    ensures PlciByNumber(d, list, plci) == PlciByNumber(c, list, plci)
  {
    if list != [] { SameNumbers(c, d, list[1..], plci); }
  }

  // ----- incoming calls -----

  /** A new call: a PLCI with this address is on the channel, incoming, and the ISDN layer is about to be
      asked. */
  lemma RingingEffect(c: Card, ch: nat, p: PlciPtr, plci: dword)
    requires Inv(c) && ch < |c.bchans| && c.bchans[ch].plcip == None && p !in c.plcis
    ensures Ringing(c, ch, p, plci) ==
      c.(plcis := c.plcis[p := Plci(plci, 0, ch, PIncoming, [])], list := [p] + c.list,
         bchans := c.bchans[ch := c.bchans[ch].(plcip := Some(p), incoming := true)])
  {
    var d := NewPlci(c, ch, p);
    var e := WithB(d, ch, d.bchans[ch].(incoming := true));
    var r := NewPlciAt(ch).(plci := plci);
    SetTwice(c.plcis, p, NewPlciAt(ch), r);
    SetTwice(c.plcis, p, r, r.(state := PIncoming));
    SetTwiceAt(c.bchans, ch, d.bchans[ch], e.bchans[ch]);
  }

  /** CONNECT_IND without a free channel is left alone; without memory only the flag of the channel is cleared.
      Otherwise the call rings on the first channel without a PLCI, and the verdict of the ISDN layer is
      carried out after the commands it gives from within its callback. */
  lemma ConnectIndEffect(c: Card, plci: dword, mem: Option<PlciPtr>, calls: seq<Command>, verdict: int)
    requires Inv(c) && PlciAddress(c.contrnr, plci) && (mem.Some? ==> mem.value !in c.plcis)
    ensures var (ch, d) := (FreeChannel(c.bchans, 0), Receive(c, ConnectIndMsg(plci, mem, calls, verdict)));
      if ch == |c.bchans| then d == c
      else if mem.None? then d == c.(bchans := c.bchans[ch := c.bchans[ch].(disconnecting := false)])
      else
        var b := c.bchans[ch].(plcip := Some(mem.value), incoming := true, disconnecting := false);
        var rings := c.(plcis := c.plcis[mem.value := Plci(plci, 0, ch, PIncoming, [])], list := [mem.value] + c.list,
                        bchans := c.bchans[ch := b], out := c.out + [Stat(ICALL, ch)]);
        d == Judge(RunCalls(rings, calls), mem.value, plci, verdict)
  {
    var ch := FreeChannel(c.bchans, 0);
    if ch < |c.bchans| && mem.Some? {
      var b := c.bchans[ch].(disconnecting := false);
      SetFlags(c, ch, b);
      RestsWithout(c, Chosen(c, ch));
      RingingEffect(Chosen(c, ch), ch, mem.value, plci);
      SetTwiceAt(c.bchans, ch, b, b.(plcip := Some(mem.value), incoming := true));
    }
  }

  /** The commands given from within the callback are carried out one after the other. */
  lemma {:induction false} CallsInOrder(c: Card, calls: seq<Command>, k: Command)
    ensures RunCalls(c, calls + [k]) == DoCommand(RunCalls(c, calls), k)
    decreases |calls|
  {
    var all := calls + [k];
    if calls == [] {
      assert all[1..] == [] && RunCalls(DoCommand(c, k), []) == DoCommand(c, k);
    } else {
      assert all[1..] == calls[1..] + [k];
      CallsInOrder(DoCommand(c, calls[0]), calls[1..], k);
    }
  }

  /** Verdict 1 alerts, unless the call has been accepted from within the callback; every other verdict
      rejects the call, with a reason of its own, and the PLCI starts to disconnect if it was still incoming. */
  lemma JudgeEffect(c: Card, p: PlciPtr, plci: dword, verdict: int)
    requires Inv(c) && p in c.plcis && c.plcis[p].plci == plci
    ensures var (r, d) := (c.plcis[p], Judge(c, p, plci, verdict));
      if verdict == 1 then
        d == if r.state != PIncoming then c
             else c.(plcis := c.plcis[p := r.(msgid := c.msgid)], msgid := (c.msgid + 1) % WORDS,
                     out := c.out + [Send(ALERT, REQ, plci, Some(c.msgid))])
      else
        && d.out == c.out + [Send(CONNECT, RESP, plci, None, if verdict == 2 then 2
                                                             else if verdict == 0 || verdict == 3 then 1 else 8)]
        && d == c.(out := d.out,
                   plcis := if r.state == PIncoming then c.plcis[p := r.(state := PDisconnecting)] else c.plcis)
  {
    assert PlciRests(Pl(c.plcis, p));
    if verdict != 1 {
      MovePlci(Turned(c, plci, verdict), p, ConnectReject);
      assert c.plcis[p := c.plcis[p]] == c.plcis;
    }
  }

  // ----- messages for NCCIs -----

  /** CONNECT_B3_ACTIVE_IND is answered and brings an allocated NCCI up. */
  lemma B3ActiveIndEffect(c: Card, ncci: dword)
    requires Inv(c) && NcciAddress(c.contrnr, ncci)
    ensures var (q, d) := (FindNcci(c, ncci), Receive(c, B3ActiveIndMsg(ncci)));
      if q.None? then d == c
      else
        && q.value in c.nccis
        && var (n, x) := (q.value, c.nccis[q.value]);
           var y := if x.state == NAllocated then x.(state := NActive, oldstate := NAllocated) else x;
           d == c.(nccis := c.nccis[n := y.(up := true)],
                   out := c.out + [Send(CONNECT_B3_ACTIVE, RESP, ncci, None), Stat(BCONN, x.chan)])
  {
    if FindNcci(c, ncci).Some? {
      FoundNcci(c, ncci);
      var n := FindNcci(c, ncci).value;
      OwnedIs(c, FindPlciOf(c, ncci).value, n);
      var d, x := Answer(c, CONNECT_B3_ACTIVE, ncci), c.nccis[n].(up := true);
      SetNcci(d, n, x);
      MoveNcci(WithN(d, n, x), n, B3ActiveInd);
      SetTwice(c.nccis, n, x, NextN(x, B3ActiveInd));
    }
  }

  /** CONNECT_B3_IND is accepted with a new, allocated NCCI, or rejected if there is no PLCI or no memory. */
  lemma B3IndEffect(c: Card, ncci: dword, mem: Option<NcciPtr>)
    requires Inv(c) && NcciAddress(c.contrnr, ncci) && (mem.Some? ==> mem.value !in c.nccis)
    ensures var (q, d) := (FindPlciOf(c, ncci), Receive(c, B3IndMsg(ncci, mem)));
      if q.None? || mem.None? then
        d == c.(msgid := (c.msgid + 1) % WORDS, out := c.out + [Send(CONNECT_B3, RESP, ncci, Some(c.msgid), 2)])
      else
        && q.value in c.plcis && c.plcis[q.value].chan < |c.bchans|
        && var (p, r, n) := (q.value, c.plcis[q.value], mem.value);
           var x := NO_NCCI.(ncci := ncci, chan := r.chan, state := NAllocated, oldstate := NIncoming, plcip := p);
           d == c.(msgid := (c.msgid + 1) % WORDS, out := c.out + [Send(CONNECT_B3, RESP, ncci, Some(c.msgid), 0)],
                   plcis := c.plcis[p := r.(nccis := [n] + r.nccis)], nccis := c.nccis[n := x],
                   bchans := c.bchans[r.chan := c.bchans[r.chan].(nccip := Some(n))])
  {
    if FindPlciOf(c, ncci).Some? && mem.Some? {
      PlciPart(c.contrnr, ncci);
      FoundPlci(c, ncci % WORDS);
      B3IncomingEffect(c, FindPlciOf(c, ncci).value, mem.value, ncci);
    }
  }

  lemma B3IncomingEffect(c: Card, p: PlciPtr, n: NcciPtr, ncci: dword)
    requires Inv(c) && p in c.plcis && n !in c.nccis && c.plcis[p].chan < |c.bchans|
    ensures var e := ChangeNcci(NewNcci(c, p, n, ncci), n, B3Ind);
      var (d, r) := (ChangeNcci(Numbered(e, CONNECT_B3, RESP, ncci), n, B3Resp), c.plcis[p]);
      var x := NO_NCCI.(ncci := ncci, chan := r.chan, state := NAllocated, oldstate := NIncoming, plcip := p);
      d == c.(msgid := (c.msgid + 1) % WORDS, out := c.out + [Send(CONNECT_B3, RESP, ncci, Some(c.msgid), 0)],
              plcis := c.plcis[p := r.(nccis := [n] + r.nccis)], nccis := c.nccis[n := x],
              bchans := c.bchans[r.chan := c.bchans[r.chan].(nccip := Some(n))])
  {
    Fresh(c, p, n, ncci);
    var d := NewNcci(c, p, n, ncci);
    MoveNcci(d, n, B3Ind);
    var e, x := ChangeNcci(d, n, B3Ind), NextN(d.nccis[n], B3Ind);
    MoveNcci(Numbered(e, CONNECT_B3, RESP, ncci), n, B3Resp);
    SetTwice(c.nccis, n, d.nccis[n], x);
    SetTwice(c.nccis, n, x, NextN(x, B3Resp));
  }

  /** CONNECT_B3_CONF gives the NCCI, found by the number of the request, its own number.  One that was being
      set up is then allocated; if it was refused, it ends, its PLCI starts to disconnect, and the ISDN layer is
      told that the B channel is down. */
  lemma B3ConfEffect(c: Card, ncci: dword, number: word, info: word)
    requires Inv(c) && NcciAddress(c.contrnr, ncci)
    ensures var (q, d) := (FindNcciByMsgid(c, ncci, number), Receive(c, B3ConfMsg(ncci, number, info)));
      if q.None? then d == c
      else
        && q.value in c.nccis && c.nccis[q.value].plcip in c.plcis
        && var (n, x) := (q.value, c.nccis[q.value]);
           if x.state != NOutgoing then d == c.(nccis := c.nccis[n := x.(ncci := ncci)])
           else if info == 0 then
             d == c.(nccis := c.nccis[n := x.(ncci := ncci, state := NAllocated, oldstate := NOutgoing)])
           else Ended(c, d, x.plcip, n, [])
  {
    if FindNcciByMsgid(c, ncci, number).Some? {
      FoundNcciByMsgid(c, ncci, number);
      var p, n := FindPlciOf(c, ncci).value, FindNcciByMsgid(c, ncci, number).value;
      OwnedIs(c, p, n);
      B3ConfGoes(c, p, n, ncci, if info != 0 then B3ConfError else B3ConfOk);
    }
  }

  lemma B3ConfGoes(c: Card, p: PlciPtr, n: NcciPtr, ncci: dword, e: NcciEvent)
    requires Fits(c) && Owned(c, p, n) && NcciRests(c.nccis[n]) && (e == B3ConfError || e == B3ConfOk)
    ensures var (x, d) := (c.nccis[n], ChangeNcci(WithN(c, n, Nc(c.nccis, n).(ncci := ncci)), n, e));
      if x.state != NOutgoing then d == c.(nccis := c.nccis[n := x.(ncci := ncci)])
      else if e == B3ConfOk then
        d == c.(nccis := c.nccis[n := x.(ncci := ncci, state := NAllocated, oldstate := NOutgoing)])
      else Ended(c, d, p, n, [])
  {
    var x := c.nccis[n].(ncci := ncci);
    var d := WithN(c, n, x);
    SetNcci(c, n, x);
    if x.state == NOutgoing && e == B3ConfError {
      NcciGoes(d, p, n, e);
      assert c.nccis[n := x] - {n} == c.nccis - {n};
    } else {
      MoveNcci(d, n, e);
      SetTwice(c.nccis, n, x, NextN(x, e));
    }
  }

  /** A DATA_B3_CONF for a handle nobody waits for has no effect. */
  lemma DataB3ConfUnknown(c: Card, ncci: dword, handle: word)
    requires Inv(c) && NcciAddress(c.contrnr, ncci)
    requires FindNcci(c, ncci).Some? ==>
      var q := Nc(c.nccis, FindNcci(c, ncci).value).acks; Find(q, handle) == |q|
    ensures Receive(c, DataB3ConfMsg(ncci, handle)) == c
  {
    if FindNcci(c, ncci).Some? {
      FoundNcci(c, ncci);
      var n := FindNcci(c, ncci).value;
      assert c.nccis[n := c.nccis[n]] == c.nccis;
    }
  }

  /** The channel is flagged and the NCCI has ended, after the answer. */
  predicate Disconnected(c: Card, d: Card, n: NcciPtr, ncci: dword) {
    && n in c.nccis && c.nccis[n].plcip in c.plcis && c.nccis[n].chan < |c.bchans|
    && Ended(Disconnecting(c, c.nccis[n].chan), d, c.nccis[n].plcip, n, [Send(DISCONNECT_B3, RESP, ncci, None)])
  }

  /** DISCONNECT_B3_IND flags the channel and ends the NCCI, whatever its state, after an answer; one that finds
      none has no effect and is not answered. */
  lemma B3DisconnectIndEffect(c: Card, ncci: dword)
    requires Inv(c) && NcciAddress(c.contrnr, ncci)
    ensures var (q, d) := (FindNcci(c, ncci), Receive(c, B3DisconnectIndMsg(ncci)));
      if q.None? then d == c else Disconnected(c, d, q.value, ncci)
  {
    if FindNcci(c, ncci).Some? {
      FoundNcci(c, ncci);
      var p, n := FindPlciOf(c, ncci).value, FindNcci(c, ncci).value;
      OwnedIs(c, p, n);
      B3DisconnectFound(c, n, ncci);
      B3DisconnectFlags(c, p, n, ncci);
    }
  }

  lemma B3DisconnectFound(c: Card, n: NcciPtr, ncci: dword)
    requires NcciAddress(c.contrnr, ncci) && FindNcci(c, ncci) == Some(n) && n in c.nccis
    ensures var e := Answer(ChangeNcci(Disconnecting(c, c.nccis[n].chan), n, B3DisconnectInd), DISCONNECT_B3, ncci);
      Receive(c, B3DisconnectIndMsg(ncci)) == ChangeNcci(e, n, B3DisconnectResp)
  {
  }

  lemma B3DisconnectFlags(c: Card, p: PlciPtr, n: NcciPtr, ncci: dword)
    requires Inv(c) && Owned(c, p, n) && NcciRests(c.nccis[n]) && c.nccis[n].state != NOutgoing
    ensures var e := Answer(ChangeNcci(Disconnecting(c, c.nccis[n].chan), n, B3DisconnectInd), DISCONNECT_B3, ncci);
      Disconnected(c, ChangeNcci(e, n, B3DisconnectResp), n, ncci)
  {
    Flagged(c, c.nccis[n].chan);
    B3DisconnectGoes(Disconnecting(c, c.nccis[n].chan), p, n, ncci);
  }

  lemma B3DisconnectGoes(c: Card, p: PlciPtr, n: NcciPtr, ncci: dword)
    requires Fits(c) && Owned(c, p, n) && NcciRests(c.nccis[n]) && c.nccis[n].state != NOutgoing
    ensures var e := Answer(ChangeNcci(c, n, B3DisconnectInd), DISCONNECT_B3, ncci);
      Ended(c, ChangeNcci(e, n, B3DisconnectResp), p, n, [Send(DISCONNECT_B3, RESP, ncci, None)])
  {
    MoveNcci(c, n, B3DisconnectInd);
    var e := Answer(ChangeNcci(c, n, B3DisconnectInd), DISCONNECT_B3, ncci);
    NcciGoes(e, p, n, B3DisconnectResp);
    EndedSince(c, e, ChangeNcci(e, n, B3DisconnectResp), p, n, Send(DISCONNECT_B3, RESP, ncci, None));
  }

  lemma EndedSince(c: Card, e: Card, d: Card, p: PlciPtr, n: NcciPtr, o: Out)
    requires p in c.plcis && n in c.nccis && n in e.nccis && e.nccis[n].chan == c.nccis[n].chan
    requires e == c.(nccis := c.nccis[n := e.nccis[n]], out := c.out + [o]) && Ended(e, d, p, n, [])
    ensures Ended(c, d, p, n, [o])
  {
    assert e.nccis - {n} == c.nccis - {n} && e.out + [] == e.out;
  }

  /** DISCONNECT_B3_CONF puts an NCCI whose disconnect is refused back, and has no other effect. */
  lemma B3DisconnectConfEffect(c: Card, ncci: dword, info: word)
    requires Inv(c) && NcciAddress(c.contrnr, ncci)
    ensures var (q, d) := (FindNcci(c, ncci), Receive(c, B3DisconnectConfMsg(ncci, info)));
      if q.None? || info == 0 || Nc(c.nccis, q.value).state != NDisconnecting then d == c
      else
        && q.value in c.nccis
        && var x := c.nccis[q.value];
           d == c.(nccis := c.nccis[q.value := x.(state := x.oldstate, oldstate := NDisconnecting)])
  {
    if FindNcci(c, ncci).Some? && info != 0 {
      FoundNcci(c, ncci);
      var n := FindNcci(c, ncci).value;
      OwnedIs(c, FindPlciOf(c, ncci).value, n);
      MoveNcci(c, n, B3DisconnectConfError);
      assert c.nccis[n := c.nccis[n]] == c.nccis;
    }
  }

  /** RESET_B3_IND is answered; an NCCI stays active.  So is CONNECT_B3_T90_ACTIVE_IND, found or not. */
  lemma ResetB3IndEffect(c: Card, ncci: dword)
    requires Inv(c) && NcciAddress(c.contrnr, ncci)
    ensures var (q, d) := (FindNcci(c, ncci), Receive(c, ResetB3IndMsg(ncci)));
      if q.None? then d == c
      else
        && q.value in c.nccis && d.out == c.out + [Send(RESET_B3, RESP, ncci, None)]
        && var x := c.nccis[q.value];
           d == c.(out := d.out,
                   nccis := if x.state == NActive then c.nccis[q.value := x.(oldstate := NActive)] else c.nccis)
    ensures Receive(c, B3T90ActiveIndMsg(ncci)) == c.(out := c.out + [Send(CONNECT_B3_T90_ACTIVE, RESP, ncci, None)])
  {
    if FindNcci(c, ncci).Some? {
      FoundNcci(c, ncci);
      var n := FindNcci(c, ncci).value;
      OwnedIs(c, FindPlciOf(c, ncci).value, n);
      MoveNcci(c, n, ResetInd);
      assert c.nccis[n := c.nccis[n]] == c.nccis;
    }
  }

  // ----- commands -----

  /** A dialled call: the new PLCI is on the channel, outgoing, and keeps the number under which CONNECT_REQ is
      sent.  A channel that is in use is left alone; without memory the ISDN layer is told. */
  lemma DialEffect(c: Card, arg: nat, mem: Option<PlciPtr>)
    requires Inv(c) && |c.bchans| > 0 && (mem.Some? ==> mem.value !in c.plcis)
    ensures var (ch, d) := (Channel(c, arg), DoDial(c, arg, mem));
      if c.bchans[ch].plcip.Some? then d == c
      else if mem.None? then d == c.(msgid := (c.msgid + 1) % WORDS, out := c.out + [Stat(DHUP, ch)])
      else
        d == c.(msgid := (c.msgid + 1) % WORDS, list := [mem.value] + c.list,
                out := c.out + [Send(CONNECT, REQ, c.contrnr % 0x1_0000_0000, Some(c.msgid))],
                plcis := c.plcis[mem.value := Plci(0, c.msgid, ch, POutgoing, [])],
                bchans := c.bchans[ch := c.bchans[ch].(plcip := mem)])
  {
    if c.bchans[Channel(c, arg)].plcip.None? && mem.Some? {
      var ch, p, r := Channel(c, arg), mem.value, NewPlciAt(Channel(c, arg)).(msgid := c.msgid);
      SetTwice(c.plcis, p, NewPlciAt(ch), r);
      SetTwice(c.plcis, p, r, r.(state := POutgoing));
    }
  }

  /** The confirmation of the request finds the very PLCI.  If the call goes through, it has its address; if it
      is refused, list, PLCIs and channels are as before, but for the flags of the channel. */
  lemma DialConfirmed(c: Card, arg: nat, p: PlciPtr, plci: dword, info: word)
    requires Inv(c) && |c.bchans| > 0 && p !in c.plcis && c.bchans[Channel(c, arg)].plcip == None
    requires PlciAddress(c.contrnr, plci)
    ensures var (ch, d) := (Channel(c, arg), DoDial(c, arg, Some(p)));
      && PlciByMsgid(d, d.list, c.msgid) == Some(p)
      && var e := Receive(d, ConnectConfMsg(plci, c.msgid, info));
         if info == 0 then p in e.plcis && e.plcis[p] == Plci(plci, c.msgid, ch, PAllocated, []) && e.list == d.list
         else
           && e.plcis == c.plcis && e.list == c.list && e.nccis == c.nccis
           && e.bchans == c.bchans[ch := Bchan(None, c.bchans[ch].nccip, false, false)]
           && e.out == d.out + [Stat(DHUP, ch)]
  {
    var ch, d := Channel(c, arg), DoDial(c, arg, Some(p));
    DialEffect(c, arg, Some(p));
    KeepDial(c, arg, Some(p));
    ConnectConfEffect(d, plci, c.msgid, info);
    if info != 0 {
      assert d.plcis - {p} == c.plcis && ([p] + c.list)[1..] == c.list;
      SetTwiceAt(c.bchans, ch, d.bchans[ch], Bchan(None, c.bchans[ch].nccip, false, false));
    }
  }

  /** Accepting answers CONNECT_IND, and an incoming PLCI waits to become active. */
  lemma AcceptEffect(c: Card, arg: nat, p: PlciPtr)
    requires Inv(c) && |c.bchans| > 0 && c.bchans[Channel(c, arg)].plcip == Some(p)
    ensures p in c.plcis
    ensures var r := c.plcis[p];
      DoAccept(c, arg) ==
        c.(msgid := (c.msgid + 1) % WORDS, out := c.out + [Send(CONNECT, RESP, r.plci, Some(c.msgid), 0)],
           plcis := if r.state == PIncoming then c.plcis[p := r.(state := PAccepting)] else c.plcis)
  {
    var ch := Channel(c, arg);
    assert ChanOk(ch, Ch(c.bchans, ch), c.plcis, c.nccis, c.polite) && PlciRests(Pl(c.plcis, p));
    MovePlci(NextNumber(c), p, ConnectResp);
    assert c.plcis[p := c.plcis[p]] == c.plcis;
  }

  /** A hangup on a channel without an NCCI: an incoming call is only flagged, a call without an address is left
      alone, and any other starts to disconnect. */
  lemma HangupPlciEffect(c: Card, arg: nat, p: PlciPtr)
    requires Inv(c) && |c.bchans| > 0
    requires var b := c.bchans[Channel(c, arg)]; !b.disconnecting && b.nccip == None && b.plcip == Some(p)
    ensures p in c.plcis
    ensures var (ch, r, d) := (Channel(c, arg), c.plcis[p], DoHangup(c, arg));
      var flagged := c.bchans[ch := c.bchans[ch].(disconnecting := true)];
      if r.state == POutgoing then d == c
      else if r.state == PIncoming then d == c.(bchans := flagged)
      else
        d == c.(bchans := flagged, plcis := c.plcis[p := r.(state := PDisconnecting)], msgid := (c.msgid + 1) % WORDS,
                out := c.out + [Send(DISCONNECT, REQ, r.plci, Some(c.msgid))])
  {
    var ch := Channel(c, arg);
    assert ChanOk(ch, Ch(c.bchans, ch), c.plcis, c.nccis, c.polite) && PlciRests(Pl(c.plcis, p));
    assert c.plcis[p := c.plcis[p]] == c.plcis;
  }

  /** A hangup on a channel with nothing on it does nothing. */
  lemma HangupFree(c: Card, arg: nat)
    requires |c.bchans| > 0 && c.bchans[Channel(c, arg)].nccip == None && c.bchans[Channel(c, arg)].plcip == None
    ensures DoHangup(c, arg) == c
  {
  }

  /** Data are sent for an active NCCI only.  A block the stack takes is numbered by the handle counter and
      waits for its confirmation; one it refuses has been offered all the same. */
  lemma SendBufEffect(c: Card, arg: nat, doack: bool, len: nat, a: SendAnswer)
    requires Inv(c) && |c.bchans| > 0
    ensures var (b, d) := (c.bchans[Channel(c, arg)], DoSendBuf(c, arg, doack, len, a));
      if b.nccip == None || Nc(c.nccis, b.nccip.value).state != NActive then d == c
      else
        && b.nccip.value in c.nccis
        && var (n, x) := (b.nccip.value, c.nccis[b.nccip.value]);
           && n in d.nccis && d.msgid == (c.msgid + 1) % WORDS && d.nccis == c.nccis[n := d.nccis[n]]
           && d == c.(msgid := d.msgid, nccis := d.nccis, out := d.out)
           && d.out == c.out + (if a == Taken || a == Refused then [Send(DATA_B3, REQ, x.ncci, Some(c.msgid))] else [])
           && (a == Taken ==>
                 && d.nccis[n].acks == x.acks + [Ack(x.datahandle, x.sends, if doack then len else -1)]
                 && d.nccis[n].datahandle == (x.datahandle + 1) % WORDS && d.nccis[n].state == NActive)
           && (a != Taken ==> d.nccis[n].datahandle == x.datahandle && d.nccis[n].state == NActive)
  {
    var ch := Channel(c, arg);
    assert ChanOk(ch, Ch(c.bchans, ch), c.plcis, c.nccis, c.polite);
    if c.bchans[ch].nccip.Some? {
      var n := c.bchans[ch].nccip.value;
      assert c.nccis[n := c.nccis[n]] == c.nccis && c.out + [] == c.out;
    }
  }
}
