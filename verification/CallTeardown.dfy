/** Taking a controller down: the loop of capidrv_delcontr always ends with an empty PLCI list, and it uses a
    freed PLCI exactly if the NCCI of some channel has outlived its PLCI. */
module CallTeardown {
  import opened Wire
  import opened Programs
  import opened CallControl
  import opened CallInvariant
  import opened CallRuns

  /** One round of the loop in capidrv_delcontr. */
  function DelChannel(c: Card, ch: nat): Card {
    var d := Emit(c, Stat(DISCH, ch));
    var b := Ch(d.bchans, ch);
    var e := if b.nccip.Some? then FreeNcci(d, b.nccip.value) else d;
    if b.plcip.Some? then FreePlci(e, b.plcip.value) else e
  }

  function DelAll(c: Card, nbchan: nat): Card
    decreases nbchan
  {
    if nbchan == 0 then c else DelAll(DelChannel(c, nbchan - 1), nbchan - 1)
  }

  // ----- the list is emptied -----

  /** Every PLCI of the list is on a channel below limit, and every channel below it knows its PLCI. */
  ghost predicate Listed(list: seq<PlciPtr>, plcis: map<PlciPtr, Plci>, bchans: seq<Bchan>, limit: nat) {
    && Unique(list) && limit <= |bchans|
    && (forall p {:trigger Pl(plcis, p)} :: p in list ==>
          p in plcis && Pl(plcis, p).chan < limit && bchans[Pl(plcis, p).chan].plcip == Some(p))
    && forall ch {:trigger Ch(bchans, ch)} :: 0 <= ch < limit && Ch(bchans, ch).plcip.Some? ==>
         Ch(bchans, ch).plcip.value in list && Pl(plcis, Ch(bchans, ch).plcip.value).chan == ch
  }

  lemma InvListed(c: Card)
    requires Inv(c)
    ensures Listed(c.list, c.plcis, c.bchans, |c.bchans|)
  {
    forall p | p in c.list
      ensures p in c.plcis && Pl(c.plcis, p).chan < |c.bchans| && c.bchans[Pl(c.plcis, p).chan].plcip == Some(p)
    {
      assert PlciOk(p, Pl(c.plcis, p), c.list, c.bchans);
    }
    forall ch: nat | ch < |c.bchans| && Ch(c.bchans, ch).plcip.Some?
      ensures Ch(c.bchans, ch).plcip.value in c.list && Pl(c.plcis, Ch(c.bchans, ch).plcip.value).chan == ch
    {
      assert ChanOk(ch, Ch(c.bchans, ch), c.plcis, c.nccis, c.polite);
      var p := c.bchans[ch].plcip.value;
      assert PlciOk(p, Pl(c.plcis, p), c.list, c.bchans);
    }
  }

  lemma SameChans(c: Card, n: NcciPtr)
    ensures var d := FreeNcci(c, n);
      && d.list == c.list && |d.bchans| == |c.bchans|
      && (forall p :: Pl(d.plcis, p).chan == Pl(c.plcis, p).chan) && (forall p <- c.plcis :: p in d.plcis)
      && forall ch :: 0 <= ch < |c.bchans| ==> d.bchans[ch].plcip == c.bchans[ch].plcip
  {
  }

  /** Freeing an NCCI, dangling or not, moves no PLCI. */
  lemma FreeNcciListed(c: Card, n: NcciPtr, limit: nat)
    requires Listed(c.list, c.plcis, c.bchans, limit)
    ensures var d := FreeNcci(c, n);
      && Listed(d.list, d.plcis, d.bchans, limit) && d.list == c.list && |d.bchans| == |c.bchans|
      && forall ch :: 0 <= ch < |c.bchans| ==> d.bchans[ch].plcip == c.bchans[ch].plcip
  {
    var d := FreeNcci(c, n);
    SameChans(c, n);
    forall p | p in d.list
      ensures p in d.plcis && Pl(d.plcis, p).chan < limit && d.bchans[Pl(d.plcis, p).chan].plcip == Some(p)
    {
      assert Pl(d.plcis, p).chan == Pl(c.plcis, p).chan;
    }
    forall ch: nat | ch < limit && Ch(d.bchans, ch).plcip.Some?
      ensures Ch(d.bchans, ch).plcip.value in d.list && Pl(d.plcis, Ch(d.bchans, ch).plcip.value).chan == ch
    {
      assert Ch(d.bchans, ch).plcip == Ch(c.bchans, ch).plcip;
      assert Pl(d.plcis, Ch(d.bchans, ch).plcip.value).chan == Pl(c.plcis, Ch(d.bchans, ch).plcip.value).chan;
    }
  }

  lemma FreePlciListed(c: Card, p: PlciPtr, limit: nat)
    requires Listed(c.list, c.plcis, c.bchans, limit + 1) && c.bchans[limit].plcip == Some(p)
    ensures var d := FreePlci(c, p); Listed(d.list, d.plcis, d.bchans, limit) && |d.bchans| == |c.bchans|
  {
    assert Ch(c.bchans, limit).plcip.Some?;
    var d := FreePlci(c, p);
    Removed(c.list, p);
    forall q | q in d.list
      ensures q in d.plcis && Pl(d.plcis, q).chan < limit && d.bchans[Pl(d.plcis, q).chan].plcip == Some(q)
    {
      assert Pl(c.plcis, q).chan != limit;
    }
    forall ch: nat | ch < limit && Ch(d.bchans, ch).plcip.Some?
      ensures Ch(d.bchans, ch).plcip.value in d.list && Pl(d.plcis, Ch(d.bchans, ch).plcip.value).chan == ch
    {
      assert Ch(d.bchans, ch).plcip == Ch(c.bchans, ch).plcip;
    }
  }

  /** A channel without a PLCI may be passed over. */
  lemma NoneListed(c: Card, limit: nat)
    requires Listed(c.list, c.plcis, c.bchans, limit + 1) && c.bchans[limit].plcip == None
    ensures Listed(c.list, c.plcis, c.bchans, limit)
  {
    forall p | p in c.list ensures Pl(c.plcis, p).chan < limit { assert Pl(c.plcis, p).chan != limit; }
  }

  lemma DelChannelListed(c: Card, ch: nat)
    requires Listed(c.list, c.plcis, c.bchans, ch + 1)
    ensures var d := DelChannel(c, ch); Listed(d.list, d.plcis, d.bchans, ch) && |d.bchans| == |c.bchans|
  {
    var d, b := Emit(c, Stat(DISCH, ch)), Ch(c.bchans, ch);
    var e := if b.nccip.Some? then FreeNcci(d, b.nccip.value) else d;
    if b.nccip.Some? { FreeNcciListed(d, b.nccip.value, ch + 1); }
    if b.plcip.Some? { FreePlciListed(e, b.plcip.value, ch); } else { NoneListed(e, ch); }
  }

  lemma {:induction false} DelAllListed(c: Card, nbchan: nat)
    requires Listed(c.list, c.plcis, c.bchans, nbchan)
    ensures DelAll(c, nbchan).list == []
    decreases nbchan
  {
    if nbchan > 0 {
      DelChannelListed(c, nbchan - 1);
      DelAllListed(DelChannel(c, nbchan - 1), nbchan - 1);
    } else if c.list != [] {
      var r := Pl(c.plcis, c.list[0]);
      assert false;
    }
  }

  /** The loop ends with an empty list, whatever the network has done before. */
  lemma ListEmptied(c: Card)
    requires Inv(c)
    ensures DelAll(c, |c.bchans|).list == []
  {
    InvListed(c);
    DelAllListed(c, |c.bchans|);
  }

  // ----- when a freed PLCI is used -----

  /** The NCCI of channel ch, if there is one, belongs to a PLCI that is allocated and that the loop, going
      from the last channel to the first, has not freed before it comes to ch. */
  predicate Owned(c: Card, ch: nat) {
    var b := Ch(c.bchans, ch);
    b.nccip.Some? ==>
      var p := Nc(c.nccis, b.nccip.value).plcip;
      p in c.plcis && Pl(c.plcis, p).chan <= ch
  }

  /** Nothing freed has been used, and only channels below limit have anything. */
  ghost predicate Clean(c: Card, limit: nat) {
    && !c.bad && Listed(c.list, c.plcis, c.bchans, limit)
    && (forall p {:trigger p in c.plcis} :: p in c.plcis ==> p in c.list)
    && forall ch {:trigger Ch(c.bchans, ch)} :: 0 <= ch < limit && Ch(c.bchans, ch).nccip.Some? ==>
         Ch(c.bchans, ch).nccip.value in c.nccis && Nc(c.nccis, Ch(c.bchans, ch).nccip.value).chan == ch
  }

  lemma InvClean(c: Card)
    requires Inv(c)
    ensures Clean(c, |c.bchans|)
  {
    InvListed(c);
    forall p | p in c.plcis ensures p in c.list { assert PlciOk(p, Pl(c.plcis, p), c.list, c.bchans); }
    forall ch: nat | ch < |c.bchans| && Ch(c.bchans, ch).nccip.Some?
      ensures Ch(c.bchans, ch).nccip.value in c.nccis && Nc(c.nccis, Ch(c.bchans, ch).nccip.value).chan == ch
    {
      assert ChanOk(ch, Ch(c.bchans, ch), c.plcis, c.nccis, c.polite);
    }
  }

  lemma BadChannel(c: Card, ch: nat)
    requires c.bad
    ensures DelChannel(c, ch).bad
  {
  }

  lemma {:induction false} BadStays(c: Card, nbchan: nat)
    requires c.bad
    ensures DelAll(c, nbchan).bad
    decreases nbchan
  {
    if nbchan > 0 {
      BadChannel(c, nbchan - 1);
      BadStays(DelChannel(c, nbchan - 1), nbchan - 1);
    }
  }

  /** The NCCI of the channel is freed through its PLCI. */
  lemma ChannelBad(c: Card, ch: nat)
    requires Clean(c, ch + 1) && !Owned(c, ch)
    ensures DelChannel(c, ch).bad
  {
    var n := Ch(c.bchans, ch).nccip.value;
    var r := Pl(c.plcis, Nc(c.nccis, n).plcip);
    assert FreeNcci(Emit(c, Stat(DISCH, ch)), n).bad;
  }

  lemma FreeNcciClean(c: Card, ch: nat, n: NcciPtr)
    requires Clean(c, ch + 1) && Owned(c, ch) && Ch(c.bchans, ch).nccip == Some(n)
    ensures var d := FreeNcci(c, n);
      && Clean(d, ch + 1) && d.plcis.Keys == c.plcis.Keys && d.bchans[ch].plcip == c.bchans[ch].plcip
      && (forall p :: Pl(d.plcis, p).chan == Pl(c.plcis, p).chan)
      && (forall k :: 0 <= k < ch ==> Ch(d.bchans, k).nccip == Ch(c.bchans, k).nccip)
      && forall k :: 0 <= k < ch && Ch(c.bchans, k).nccip.Some? ==>
           Nc(d.nccis, Ch(c.bchans, k).nccip.value) == Nc(c.nccis, Ch(c.bchans, k).nccip.value)
  {
    var d := FreeNcci(c, n);
    FreeNcciListed(c, n, ch + 1);
    assert Nc(c.nccis, n).chan == ch && n in c.nccis && d.plcis.Keys == c.plcis.Keys;
    forall k: nat | k < ch
      ensures Ch(d.bchans, k).nccip == Ch(c.bchans, k).nccip
      ensures Ch(c.bchans, k).nccip.Some? ==> var m := Ch(c.bchans, k).nccip.value;
        m in d.nccis && Nc(d.nccis, m) == Nc(c.nccis, m) && Nc(c.nccis, m).chan == k
    {
      if Ch(c.bchans, k).nccip.Some? { assert Nc(c.nccis, Ch(c.bchans, k).nccip.value).chan == k; }
    }
    forall p | p in d.plcis ensures p in d.list { assert p in c.plcis; }
  }

  lemma FreePlciClean(c: Card, ch: nat, p: PlciPtr)
    requires Clean(c, ch + 1) && Ch(c.bchans, ch).plcip == Some(p)
    ensures var d := FreePlci(c, p);
      && Clean(d, ch) && d.nccis == c.nccis
      && (forall k :: 0 <= k < ch ==> Ch(d.bchans, k).nccip == Ch(c.bchans, k).nccip)
      && (forall q :: q in d.plcis <==> (q in c.plcis && Pl(c.plcis, q).chan != ch))
      && forall q :: q in d.plcis ==> d.plcis[q] == c.plcis[q]
  {
    FreePlciListed(c, p, ch);
    var d := FreePlci(c, p);
    Removed(c.list, p);
    forall k: nat | k < ch ensures Ch(d.bchans, k).nccip == Ch(c.bchans, k).nccip { }
    forall q | q in c.plcis && q != p ensures Pl(c.plcis, q).chan != ch { assert q in c.list; }
  }

  /** One round of the loop leaves the other channels what they were for it. */
  lemma DelChannelClean(c: Card, ch: nat)
    requires Clean(c, ch + 1) && Owned(c, ch)
    ensures var d := DelChannel(c, ch);
      Clean(d, ch) && |d.bchans| == |c.bchans| && forall k :: 0 <= k < ch ==> (Owned(d, k) <==> Owned(c, k))
  {
    DelChannelListed(c, ch);
    var d, b := Emit(c, Stat(DISCH, ch)), Ch(c.bchans, ch);
    var e := if b.nccip.Some? then FreeNcci(d, b.nccip.value) else d;
    if b.nccip.Some? { FreeNcciClean(d, ch, b.nccip.value); }
    if b.plcip.Some? {
      FreePlciClean(e, ch, b.plcip.value);
    } else {
      NoneListed(e, ch);
      forall q | q in e.plcis ensures Pl(e.plcis, q).chan != ch { assert q in e.list; }
    }
  }

  lemma {:induction false} DelAllBad(c: Card, nbchan: nat)
    requires Clean(c, nbchan)
    ensures var d := DelAll(c, nbchan);
      && (!d.bad <==> forall ch :: 0 <= ch < nbchan ==> Owned(c, ch))
      && (!d.bad ==> d.plcis == map[])
    decreases nbchan
  {
    if nbchan == 0 {
      forall p ensures p !in c.plcis {
        var r := Pl(c.plcis, p);
      }
    } else if Owned(c, nbchan - 1) {
      DelChannelClean(c, nbchan - 1);
      DelAllBad(DelChannel(c, nbchan - 1), nbchan - 1);
    } else {
      ChannelBad(c, nbchan - 1);
      BadStays(DelChannel(c, nbchan - 1), nbchan - 1);
    }
  }

  /** The loop uses no freed object exactly if each channel's NCCI belongs to a PLCI that is still allocated,
      on that channel or an earlier one; and then it frees every PLCI.  A PLCI pointer whose address has been
      handed out again counts as allocated. */
  lemma TakenDownIff(c: Card)
    requires Inv(c)
    ensures var d := DelAll(c, |c.bchans|);
      && (!d.bad <==> forall ch :: 0 <= ch < |c.bchans| ==> Owned(c, ch))
      && (!d.bad ==> d.plcis == map[])
  {
    InvClean(c);
    DelAllBad(c, |c.bchans|);
  }

  /** In particular if DISCONNECT_IND has only come for PLCIs without NCCIs. */
  lemma TakenDown(c: Card)
    requires Inv(c) && c.polite
    ensures var d := DelAll(c, |c.bchans|); d.list == [] && d.plcis == map[] && !d.bad
  {
    forall ch: nat | ch < |c.bchans| ensures Owned(c, ch) {
      if c.bchans[ch].nccip.Some? {
        ChannelNcci(c, ch);
        var p := c.nccis[c.bchans[ch].nccip.value].plcip;
        assert PlciOk(p, Pl(c.plcis, p), c.list, c.bchans);
        assert ChanOk(ch, Ch(c.bchans, ch), c.plcis, c.nccis, c.polite);
      }
    }
    ListEmptied(c);
    TakenDownIff(c);
  }
  // ----- what the ISDN layer is told -----

  /** Each channel is disabled once, from the last to the first, and no message is sent. */
  lemma {:induction false} DisabledEach(c: Card, nbchan: nat)
    ensures DelAll(c, nbchan).out == c.out + seq(nbchan, i requires 0 <= i < nbchan => Stat(DISCH, nbchan - 1 - i))
    decreases nbchan
  {
    if nbchan > 0 {
      DisabledOne(c, nbchan - 1);
      DisabledEach(DelChannel(c, nbchan - 1), nbchan - 1);
      var rest := seq(nbchan - 1, i requires 0 <= i < nbchan - 1 => Stat(DISCH, nbchan - 2 - i));
      assert seq(nbchan, i requires 0 <= i < nbchan => Stat(DISCH, nbchan - 1 - i)) == [Stat(DISCH, nbchan - 1)] + rest;
    }
  }

  lemma DisabledOne(c: Card, ch: nat)
    ensures DelChannel(c, ch).out == c.out + [Stat(DISCH, ch)]
  {
    var d, b := Emit(c, Stat(DISCH, ch)), Ch(c.bchans, ch);
    if b.nccip.Some? { FreeNcciSilent(d, b.nccip.value); }
    if b.plcip.Some? { FreePlciSilent(if b.nccip.Some? then FreeNcci(d, b.nccip.value) else d, b.plcip.value); }
  }

  lemma FreeNcciSilent(c: Card, n: NcciPtr)
    ensures FreeNcci(c, n).out == c.out
  {
  }

  lemma FreePlciSilent(c: Card, p: PlciPtr)
    ensures FreePlci(c, p).out == c.out
  {
  }
}
