/** What the call control of a controller keeps: objects, lists and channels fit together, no freed object is
    used, and the PLCI and NCCI machines only rest in some of their states. */
module CallInvariant {
  import opened Wire
  import opened Programs
  import opened AckQueue
  import opened CallControl

  // ----- structure -----

  ghost predicate Unique<T>(s: seq<T>) {
    forall i, j {:trigger Two(s, i, j)} :: 0 <= i < j < |s| ==> Two(s, i, j)
  }

  ghost predicate Two<T>(s: seq<T>, i: nat, j: nat) {
    i < |s| && j < |s| ==> s[i] != s[j]
  }

  /** A PLCI is on its channel, and a channel knows the PLCI that is on it. */
  ghost predicate PlciOk(p: PlciPtr, r: Plci, list: seq<PlciPtr>, bchans: seq<Bchan>) {
    p in list && r.chan < |bchans| && bchans[r.chan].plcip == Some(p) && Unique(r.nccis)
  }

  ghost predicate ChanOk(ch: nat, b: Bchan, plcis: map<PlciPtr, Plci>, nccis: map<NcciPtr, Ncci>, polite: bool) {
    && (b.plcip.Some? ==> b.plcip.value in plcis && plcis[b.plcip.value].chan == ch)
    && (b.nccip.Some? ==> b.nccip.value in nccis && nccis[b.nccip.value].chan == ch)
    && (polite && b.nccip.Some? ==> Attached(b.nccip.value, Nc(nccis, b.nccip.value), plcis))
  }

  /** The NCCI is in the list of a live PLCI. */
  ghost predicate Attached(n: NcciPtr, x: Ncci, plcis: map<PlciPtr, Plci>) {
    x.plcip in plcis && n in plcis[x.plcip].nccis
  }

  /** An NCCI in the list of a PLCI belongs to it and to its channel. */
  ghost predicate LinkOk(p: PlciPtr, r: Plci, n: NcciPtr, nccis: map<NcciPtr, Ncci>) {
    n in r.nccis ==> n in nccis && nccis[n].plcip == p && nccis[n].chan == r.chan
  }

  ghost predicate Plcis(plcis: map<PlciPtr, Plci>, list: seq<PlciPtr>, bchans: seq<Bchan>) {
    && Unique(list) && (forall p :: p in list ==> p in plcis)
    && forall p {:trigger PlciOk(p, Pl(plcis, p), list, bchans)} ::
         p in plcis ==> PlciOk(p, Pl(plcis, p), list, bchans)
  }

  ghost predicate Chans(plcis: map<PlciPtr, Plci>, nccis: map<NcciPtr, Ncci>, bchans: seq<Bchan>, polite: bool) {
    forall ch {:trigger ChanOk(ch, Ch(bchans, ch), plcis, nccis, polite)} ::
      0 <= ch < |bchans| ==> ChanOk(ch, Ch(bchans, ch), plcis, nccis, polite)
  }

  ghost predicate Links(plcis: map<PlciPtr, Plci>, nccis: map<NcciPtr, Ncci>) {
    forall p, n {:trigger LinkOk(p, Pl(plcis, p), n, nccis)} :: p in plcis ==> LinkOk(p, Pl(plcis, p), n, nccis)
  }

  /** Lists, objects and channels fit together, and nothing freed has been used.  Controller numbers start
      at 1. */
  ghost predicate Fits(c: Card) {
    && c.contrnr > 0 && !c.bad && Plcis(c.plcis, c.list, c.bchans) && Chans(c.plcis, c.nccis, c.bchans, c.polite)
    && Links(c.plcis, c.nccis)
  }

  // ----- rest states -----

  /** Between calls a PLCI is in one of six states, and outgoing exactly while it has no number. */
  predicate PlciRests(r: Plci) {
    && (r.state == POutgoing || r.state == PAllocated || r.state == PActive || r.state == PIncoming
        || r.state == PAccepting || r.state == PDisconnecting)
    && (r.state == POutgoing <==> r.plci == 0) && (r.state == POutgoing ==> r.nccis == [])
  }

  /** Between calls an NCCI is in one of four states, and outgoing exactly while its number has no NCCI part;
      it was up if it is active, and a disconnect that fails leads back to one of the two states it can have
      been asked for in. */
  predicate NcciRests(x: Ncci) {
    && (x.state == NOutgoing || x.state == NAllocated || x.state == NActive || x.state == NDisconnecting)
    && (x.state == NOutgoing <==> x.ncci < WORDS)
    && (x.state == NActive ==> x.up)
    && (x.state == NDisconnecting ==> x.oldstate == NAllocated || (x.oldstate == NActive && x.up))
    && x.datahandle == Handle(x.sends) && (x.near ==> Current(x.acks, x.sends))
  }

  ghost predicate Rests(c: Card, pbut: set<PlciPtr>, nbut: set<NcciPtr>) {
    && (forall p {:trigger PlciRests(Pl(c.plcis, p))} :: p in c.plcis && p !in pbut ==> PlciRests(Pl(c.plcis, p)))
    && forall n {:trigger NcciRests(Nc(c.nccis, n))} :: n in c.nccis && n !in nbut ==> NcciRests(Nc(c.nccis, n))
  }

  ghost predicate Inv(c: Card) {
    Fits(c) && Rests(c, {}, {})
  }

  function Init(contrnr: nat, nbchan: nat): Card {
    Card(contrnr, 0, [], map[], map[], seq(nbchan, _ => NO_BCHAN), [], false, true)
  }

  lemma InitInv(contrnr: nat, nbchan: nat)
    requires contrnr > 0
    ensures Inv(Init(contrnr, nbchan))
  {
  }

  // ----- lists -----

  lemma {:induction false} Removed<T>(s: seq<T>, x: T)
    requires Unique(s)
    ensures Unique(Remove(s, x)) && forall y :: y in Remove(s, x) <==> y in s && y != x
  {
    if s != [] {
      var t := s[1..];
      assert Unique(t) by { forall i, j | 0 <= i < j < |t| ensures Two(t, i, j) { assert Two(s, i + 1, j + 1); } }
      forall y | y in t ensures y != s[0] { var k :| 0 <= k < |t| && t[k] == y; assert Two(s, 0, k + 1); }
      Removed(t, x);
      if s[0] != x { Consed(s[0], Remove(t, x)); }
    }
  }

  lemma Consed<T>(x: T, s: seq<T>)
    requires Unique(s) && x !in s
    ensures Unique([x] + s)
  {
    var r := [x] + s;
    forall i, j | 0 <= i < j < |r| ensures Two(r, i, j) { if i > 0 { assert Two(s, i - 1, j - 1); } }
  }

  // ----- one object changes -----

  /** A PLCI changes its number, message number or state. */
  lemma SetPlci(c: Card, p: PlciPtr, r: Plci)
    requires Fits(c) && p in c.plcis && r.chan == c.plcis[p].chan && r.nccis == c.plcis[p].nccis
    ensures Fits(WithP(c, p, r))
  {
    var plcis := c.plcis[p := r];
    forall q | q in plcis ensures PlciOk(q, Pl(plcis, q), c.list, c.bchans) {
      assert PlciOk(q, Pl(c.plcis, q), c.list, c.bchans);
    }
    forall ch: nat | ch < |c.bchans| ensures ChanOk(ch, Ch(c.bchans, ch), plcis, c.nccis, c.polite) {
      assert ChanOk(ch, Ch(c.bchans, ch), c.plcis, c.nccis, c.polite);
    }
    forall q, n | q in plcis ensures LinkOk(q, Pl(plcis, q), n, c.nccis) {
      assert LinkOk(q, Pl(c.plcis, q), n, c.nccis);
    }
  }

  /** An NCCI changes anything but its place. */
  lemma SetNcci(c: Card, n: NcciPtr, x: Ncci)
    requires Fits(c) && n in c.nccis && x.chan == c.nccis[n].chan && x.plcip == c.nccis[n].plcip
    ensures Fits(WithN(c, n, x))
  {
    var nccis := c.nccis[n := x];
    forall ch: nat | ch < |c.bchans| ensures ChanOk(ch, Ch(c.bchans, ch), c.plcis, nccis, c.polite) {
      assert ChanOk(ch, Ch(c.bchans, ch), c.plcis, c.nccis, c.polite);
    }
    forall q, m | q in c.plcis ensures LinkOk(q, Pl(c.plcis, q), m, nccis) {
      assert LinkOk(q, Pl(c.plcis, q), m, c.nccis);
    }
  }

  /** A channel changes its flags. */
  lemma SetFlags(c: Card, ch: nat, b: Bchan)
    requires Fits(c) && ch < |c.bchans| && b.plcip == c.bchans[ch].plcip && b.nccip == c.bchans[ch].nccip
    ensures Fits(WithB(c, ch, b))
  {
    var bchans := c.bchans[ch := b];
    forall p | p in c.plcis ensures PlciOk(p, Pl(c.plcis, p), c.list, bchans) {
      assert PlciOk(p, Pl(c.plcis, p), c.list, c.bchans);
    }
    forall k: nat | k < |bchans| ensures ChanOk(k, Ch(bchans, k), c.plcis, c.nccis, c.polite) {
      assert ChanOk(k, Ch(c.bchans, k), c.plcis, c.nccis, c.polite);
    }
  }

  lemma NewPlciFits(c: Card, ch: nat, p: PlciPtr)
    requires Fits(c) && ch < |c.bchans| && c.bchans[ch].plcip == None && p !in c.plcis
    ensures Fits(NewPlci(c, ch, p))
  {
    var d := NewPlci(c, ch, p);
    Consed(p, c.list);
    forall q | q in d.plcis ensures PlciOk(q, Pl(d.plcis, q), d.list, d.bchans) {
      if q != p { assert PlciOk(q, Pl(c.plcis, q), c.list, c.bchans); }
    }
    forall k: nat | k < |d.bchans| ensures ChanOk(k, Ch(d.bchans, k), d.plcis, d.nccis, d.polite) {
      assert ChanOk(k, Ch(c.bchans, k), c.plcis, c.nccis, c.polite);
    }
    forall q, n | q in d.plcis ensures LinkOk(q, Pl(d.plcis, q), n, d.nccis) {
      if q != p { assert LinkOk(q, Pl(c.plcis, q), n, c.nccis); }
    }
  }

  lemma FreePlciFits(c: Card, p: PlciPtr)
    requires Fits(c) && p in c.plcis
    ensures Fits(FreePlci(c, p)) && FreePlci(c, p).plcis == c.plcis - {p} && FreePlci(c, p).nccis == c.nccis
  {
    var d := FreePlci(c, p);
    assert PlciOk(p, Pl(c.plcis, p), c.list, c.bchans);
    Removed(c.list, p);
    forall q | q in d.plcis ensures PlciOk(q, Pl(d.plcis, q), d.list, d.bchans) {
      assert PlciOk(q, Pl(c.plcis, q), c.list, c.bchans);
    }
    forall k: nat | k < |d.bchans| ensures ChanOk(k, Ch(d.bchans, k), d.plcis, d.nccis, d.polite) {
      if c.bchans[k].nccip.Some? { assert LinkOk(p, Pl(c.plcis, p), c.bchans[k].nccip.value, c.nccis); }
      assert ChanOk(k, Ch(c.bchans, k), c.plcis, c.nccis, c.polite);
    }
    forall q, n | q in d.plcis ensures LinkOk(q, Pl(d.plcis, q), n, d.nccis) {
      assert LinkOk(q, Pl(c.plcis, q), n, c.nccis);
    }
  }

  lemma NewNcciFits(c: Card, p: PlciPtr, n: NcciPtr, ncci: dword)
    requires Fits(c) && p in c.plcis && n !in c.nccis
    ensures Fits(NewNcci(c, p, n, ncci))
  {
    var d := NewNcci(c, p, n, ncci);
    assert PlciOk(p, Pl(c.plcis, p), c.list, c.bchans) && LinkOk(p, Pl(c.plcis, p), n, c.nccis);
    Consed(n, c.plcis[p].nccis);
    forall q | q in d.plcis ensures PlciOk(q, Pl(d.plcis, q), d.list, d.bchans) {
      assert PlciOk(q, Pl(c.plcis, q), c.list, c.bchans);
    }
    forall k: nat | k < |d.bchans| ensures ChanOk(k, Ch(d.bchans, k), d.plcis, d.nccis, d.polite) {
      assert ChanOk(k, Ch(c.bchans, k), c.plcis, c.nccis, c.polite);
    }
    forall q, m | q in d.plcis ensures LinkOk(q, Pl(d.plcis, q), m, d.nccis) {
      assert LinkOk(q, Pl(c.plcis, q), m, c.nccis);
    }
  }

  lemma FreeNcciFits(c: Card, p: PlciPtr, n: NcciPtr)
    requires Fits(c) && p in c.plcis && n in c.plcis[p].nccis
    ensures Fits(FreeNcci(c, n)) && FreeNcci(c, n).nccis == c.nccis - {n}
    ensures FreeNcci(c, n).plcis == c.plcis[p := c.plcis[p].(nccis := Remove(c.plcis[p].nccis, n))]
  {
    var d := FreeNcci(c, n);
    assert PlciOk(p, Pl(c.plcis, p), c.list, c.bchans) && LinkOk(p, Pl(c.plcis, p), n, c.nccis);
    Removed(c.plcis[p].nccis, n);
    forall q | q in d.plcis ensures PlciOk(q, Pl(d.plcis, q), d.list, d.bchans) {
      assert PlciOk(q, Pl(c.plcis, q), c.list, c.bchans);
    }
    forall k: nat | k < |d.bchans| ensures ChanOk(k, Ch(d.bchans, k), d.plcis, d.nccis, d.polite) {
      assert ChanOk(k, Ch(c.bchans, k), c.plcis, c.nccis, c.polite);
    }
    forall q, m | q in d.plcis ensures LinkOk(q, Pl(d.plcis, q), m, d.nccis) {
      assert LinkOk(q, Pl(c.plcis, q), m, c.nccis) && LinkOk(q, Pl(c.plcis, q), n, c.nccis);
    }
  }
}
