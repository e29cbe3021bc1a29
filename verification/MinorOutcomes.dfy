/** What each tty or message event achieves at a minor: which blocks are handed on and which are delivered, up
    to the first answer of the environment that stands in the way. */
module MinorOutcomes {
  import opened Wire
  import opened AckQueue
  import opened Messages
  import opened Programs
  import opened MinorPath

  // ----- sending -----

  /** The loop goes on after this answer: the block was taken, or dropped on a hard error. */
  predicate Leaves(a: TxAnswer) { a.Taken? || a.Refused? }

  /** How many of n queued blocks leave: those before the first answer that finds no memory or a full queue.
      There is no memory when there is no answer. */
  function Leaving(n: nat, tx: seq<TxAnswer>): (k: nat)
    ensures k <= n && k <= |tx|
  {
    if n == 0 || tx == [] || !Leaves(tx[0]) then 0 else 1 + Leaving(n - 1, tx[1..])
  }

  lemma {:induction false} LeavingMeans(n: nat, tx: seq<TxAnswer>)
    ensures var k := Leaving(n, tx);
      (forall i :: 0 <= i < k ==> Leaves(tx[i])) && (k < n ==> k == |tx| || !Leaves(tx[k]))
  {
    if n > 0 && tx != [] && Leaves(tx[0]) {
      var k := Leaving(n - 1, tx[1..]);
      LeavingMeans(n - 1, tx[1..]);
      forall i | 0 <= i < k + 1 ensures Leaves(tx[i]) { assert i > 0 ==> tx[1..][i - 1] == tx[i]; }
    }
  }

  /** The first k blocks of q have left, each taken or dropped as its answer says. */
  function Fates(q: seq<seq<byte>>, tx: seq<TxAnswer>, k: nat): (g: seq<Gone>)
    requires k <= |q| && k <= |tx|
  {
    seq(k, i requires 0 <= i < k => Gone(q[i], tx[i].Taken?))
  }

  /** From m to n the blocks of q have been offered to the stack. */
  predicate Sends(m: Minor, n: Minor, q: seq<seq<byte>>, tx: seq<TxAnswer>) {
    var k := Leaving(|q|, tx);
    n.outqueue == q[k..] && n.past.gone == m.past.gone + Fates(q, tx, k)
  }

  /** A round of the send loop ends it exactly on an answer that finds no memory or a full queue, and every
      attempt takes one message number. */
  lemma SendOneGoesOn(m: Minor, a: TxAnswer)
    requires m.outqueue != []
    ensures SendOne(m, a).1 <==> Leaves(a)
    ensures SendOne(m, a).0.msgid == Next(m.msgid)
    ensures var n := SendOne(m, a).0;
      if Leaves(a) then n.outqueue == m.outqueue[1..] && n.past.gone == m.past.gone + [Gone(m.outqueue[0], a.Taken?)]
      else n.outqueue == m.outqueue && n.past.gone == m.past.gone
  {
    assert [m.outqueue[0]] + m.outqueue[1..] == m.outqueue;
  }

  lemma {:induction false} SendAllSends(m: Minor, tx: seq<TxAnswer>)
    ensures Sends(m, SendAll(m, tx), m.outqueue, tx)
    decreases |m.outqueue|
  {
    var q := m.outqueue;
    if q == [] {
      assert Fates(q, tx, 0) == [];
    } else {
      SendOneGoesOn(m, FirstTx(tx));
      var n := SendOne(m, FirstTx(tx)).0;
      SendAllStep(m, tx, n, SendOne(m, FirstTx(tx)).1);
      if Leaves(FirstTx(tx)) {
        SendAllSends(n, Rest(tx));
        OneMoreLeft(m.past.gone, q, tx, SendAll(m, tx).past.gone);
      } else {
        assert Fates(q, tx, 0) == [];
      }
    }
  }

  lemma OneMoreLeft(was: seq<Gone>, q: seq<seq<byte>>, tx: seq<TxAnswer>, now: seq<Gone>)
    requires q != [] && tx != [] && Leaves(tx[0])
    requires now == was + [Gone(q[0], tx[0].Taken?)] + Fates(q[1..], tx[1..], Leaving(|q| - 1, tx[1..]))
    ensures now == was + Fates(q, tx, Leaving(|q|, tx))
    ensures q[1..][Leaving(|q| - 1, tx[1..])..] == q[Leaving(|q|, tx)..]
  {
    var k := Leaving(|q| - 1, tx[1..]);
    assert Leaving(|q|, tx) == k + 1;
    FirstFate(q, tx, k);
    Grouped(was, [Gone(q[0], tx[0].Taken?)], Fates(q[1..], tx[1..], k));
  }

  lemma FirstFate(q: seq<seq<byte>>, tx: seq<TxAnswer>, k: nat)
    requires k < |q| && k < |tx|
    ensures Fates(q, tx, k + 1) == [Gone(q[0], tx[0].Taken?)] + Fates(q[1..], tx[1..], k)
  {
  }

  lemma Grouped<T>(a: seq<T>, b: seq<T>, c: seq<T>)
    ensures a + b + c == a + (b + c)
  {
  }

  predicate Stopped(m: Minor) { m.tty && m.ttyoutstop }

  /** From m to n the send loop has run over the queue q, unless the tty has stopped output. */
  predicate Offers(m: Minor, n: Minor, q: seq<seq<byte>>, tx: seq<TxAnswer>) {
    if Stopped(n) then n.outqueue == q && n.past.gone == m.past.gone else Sends(m, n, q, tx)
  }

  lemma HandleSends(m: Minor, tx: seq<TxAnswer>)
    ensures Offers(m, HandleMinorSend(m, tx), m.outqueue, tx) && SameLine(m, HandleMinorSend(m, tx))
    ensures HandleMinorSend(m, tx).ttyskb == m.ttyskb && HandleMinorSend(m, tx).past.accepted == m.past.accepted
    ensures SameIn(m, HandleMinorSend(m, tx))
  {
    SendAllFrame(m, tx);
    SendKeepsBuffer(m, tx);
    SendAllSends(m, tx);
    SendAllAccepted(m, tx);
  }

  lemma {:induction false} SendAllAccepted(m: Minor, tx: seq<TxAnswer>)
    ensures SendAll(m, tx).past.accepted == m.past.accepted
    decreases |m.outqueue|
  {
    if m.outqueue != [] {
      SendOneAccepted(m, FirstTx(tx));
      if SendOne(m, FirstTx(tx)).1 { SendAllAccepted(SendOne(m, FirstTx(tx)).0, Rest(tx)); }
    }
  }

  lemma SendOneAccepted(m: Minor, a: TxAnswer)
    requires m.outqueue != []
    ensures SendOne(m, a).0.past.accepted == m.past.accepted
  {
    if a.Taken? { TakenAccepted(m, a); }
  }

  lemma TakenAccepted(m: Minor, a: TxAnswer)
    requires m.outqueue != [] && a.Taken?
    ensures SendOne(m, a).0.past.accepted == m.past.accepted
  {
  }

  /** If the tty has not stopped output and the stack takes each block, all of them are handed on, in order. */
  lemma AllTaken(m: Minor, tx: seq<TxAnswer>)
    requires !Stopped(m) && |m.outqueue| <= |tx| && forall i :: 0 <= i < |m.outqueue| ==> tx[i].Taken?
    ensures var n := HandleMinorSend(m, tx);
      && n.outqueue == [] && |n.past.gone| == |m.past.gone| + |m.outqueue|
      && forall i :: 0 <= i < |m.outqueue| ==> n.past.gone[|m.past.gone| + i] == Gone(m.outqueue[i], true)
  {
    HandleSends(m, tx);
    LeavingMeans(|m.outqueue|, tx);
    assert Leaving(|m.outqueue|, tx) == |m.outqueue|;
  }

  // ----- receiving -----

  /** How many of n waiting blocks are delivered: those before the first that is not accepted. */
  function Passing(n: nat, rx: seq<RxAnswer>): (k: nat)
    ensures k <= n && k <= |rx|
  {
    if n == 0 || rx == [] || rx[0] != Accepted then 0 else 1 + Passing(n - 1, rx[1..])
  }

  lemma {:induction false} PassingMeans(n: nat, rx: seq<RxAnswer>)
    ensures var k := Passing(n, rx);
      (forall i :: 0 <= i < k ==> rx[i] == Accepted) && (k < n ==> k == |rx| || rx[k] != Accepted)
  {
    if n > 0 && rx != [] && rx[0] == Accepted {
      var k := Passing(n - 1, rx[1..]);
      PassingMeans(n - 1, rx[1..]);
      forall i | 0 <= i < k + 1 ensures rx[i] == Accepted { assert i > 0 ==> rx[1..][i - 1] == rx[i]; }
    }
  }

  predicate Listens(m: Minor) { m.tty && !m.ttyinstop }

  /** From m to n the blocks of q have been offered to the tty. */
  predicate Delivers(m: Minor, n: Minor, q: seq<seq<byte>>, rx: seq<RxAnswer>) {
    var k := if Listens(n) then Passing(|q|, rx) else 0;
    n.inqueue == q[k..] && n.past.delivered == m.past.delivered + q[..k]
  }

  /** A block is delivered exactly if there is a tty, it is not throttled, and nothing stands in the way. */
  lemma DeliveredIff(m: Minor, a: RxAnswer)
    requires AllInd(m.inqueue) && m.inqueue != []
    ensures RecvOne(m, a).1 <==> Listens(m) && a == Accepted
    ensures var n := RecvOne(m, a).0;
      && SameLine(m, n)
      && if RecvOne(m, a).1 then
           n.inqueue == m.inqueue[1..] && n.past.delivered == m.past.delivered + [m.inqueue[0]]
         else n.inqueue == m.inqueue && n.past.delivered == m.past.delivered
  {
    assert [m.inqueue[0]] + m.inqueue[1..] == m.inqueue;
  }

  lemma RecvStep(m: Minor, rx: seq<RxAnswer>)
    requires AllInd(m.inqueue) && m.inqueue != []
    ensures var (n, go) := RecvOne(m, FirstRx(rx));
      AllInd(n.inqueue) && HandleMinorRecv(m, rx) == if go then HandleMinorRecv(n, Rest(rx)) else n
  {
  }

  lemma Chained(m: Minor, n: Minor, r: Minor, rx: seq<RxAnswer>)
    requires m.inqueue != [] && rx != [] && rx[0] == Accepted && Listens(m) && SameLine(m, n) && SameLine(n, r)
    requires n.inqueue == m.inqueue[1..] && n.past.delivered == m.past.delivered + [m.inqueue[0]]
    requires Delivers(n, r, n.inqueue, rx[1..])
    ensures Delivers(m, r, m.inqueue, rx)
  {
    OneMorePassed(m.past.delivered, m.inqueue, rx, r.past.delivered);
  }

  lemma NoneDelivered(m: Minor, n: Minor, rx: seq<RxAnswer>)
    requires SameLine(m, n) && n.inqueue == m.inqueue && n.past.delivered == m.past.delivered
    requires m.inqueue == [] || !Listens(m) || FirstRx(rx) != Accepted
    ensures Delivers(m, n, m.inqueue, rx)
  {
    assert m.inqueue[..0] == [] && m.past.delivered + [] == m.past.delivered;
  }

  lemma {:induction false} RecvDelivers(m: Minor, rx: seq<RxAnswer>)
    requires AllInd(m.inqueue)
    ensures Delivers(m, HandleMinorRecv(m, rx), m.inqueue, rx) && SameLine(m, HandleMinorRecv(m, rx))
    decreases |m.inqueue|
  {
    if m.inqueue == [] {
      NoneDelivered(m, m, rx);
    } else {
      DeliveredIff(m, FirstRx(rx));
      RecvStep(m, rx);
      var n := RecvOne(m, FirstRx(rx)).0;
      if RecvOne(m, FirstRx(rx)).1 {
        RecvDelivers(n, Rest(rx));
        Chained(m, n, HandleMinorRecv(m, rx), rx);
      } else {
        NoneDelivered(m, n, rx);
      }
    }
  }

  lemma {:induction false} RecvReceived(m: Minor, rx: seq<RxAnswer>)
    requires AllInd(m.inqueue)
    ensures HandleMinorRecv(m, rx).past.received == m.past.received
    decreases |m.inqueue|
  {
    if m.inqueue != [] {
      RecvStep(m, rx);
      if RecvOne(m, FirstRx(rx)).1 { RecvReceived(RecvOne(m, FirstRx(rx)).0, Rest(rx)); }
    }
  }

  /** The receive loop, with what it leaves alone. */
  lemma HandleDelivers(m: Minor, rx: seq<RxAnswer>)
    requires AllInd(m.inqueue)
    ensures var n := HandleMinorRecv(m, rx);
      Delivers(m, n, m.inqueue, rx) && SameLine(m, n) && SameOut(m, n) && n.past.received == m.past.received
  {
    RecvDelivers(m, rx);
    RecvAllFrame(m, rx);
    RecvReceived(m, rx);
  }

  lemma OneMorePassed(was: seq<seq<byte>>, q: seq<seq<byte>>, rx: seq<RxAnswer>, now: seq<seq<byte>>)
    requires q != [] && rx != [] && rx[0] == Accepted
    requires now == was + [q[0]] + q[1..][..Passing(|q| - 1, rx[1..])]
    ensures now == was + q[..Passing(|q|, rx)] && q[1..][Passing(|q| - 1, rx[1..])..] == q[Passing(|q|, rx)..]
  {
    assert Passing(|q|, rx) == Passing(|q| - 1, rx[1..]) + 1;
    TakeOne(was, q, Passing(|q| - 1, rx[1..]));
  }

  lemma TakeOne<T>(was: seq<T>, q: seq<T>, k: nat)
    requires k < |q|
    ensures was + [q[0]] + q[1..][..k] == was + q[..k + 1] && q[1..][k..] == q[k + 1..]
  {
  }

  /** If there is a tty that is not throttled and each block is accepted, all of them are delivered, in order. */
  lemma AllDelivered(m: Minor, rx: seq<RxAnswer>)
    requires AllInd(m.inqueue) && Listens(m)
    requires |m.inqueue| <= |rx| && forall i :: 0 <= i < |m.inqueue| ==> rx[i] == Accepted
    ensures var n := HandleMinorRecv(m, rx);
      n.inqueue == [] && n.past.delivered == m.past.delivered + m.inqueue
  {
    RecvDelivers(m, rx);
    PassingMeans(|m.inqueue|, rx);
    assert Passing(|m.inqueue|, rx) == |m.inqueue|;
  }

  // ----- events -----

  /** What put_char has collected is queued as one block. */
  function Collection(m: Minor): seq<seq<byte>> {
    match m.ttyskb
    case None => []
    case Some(b) => [b]
  }

  /** A write that finds memory and its data. */
  predicate Written(e: Event) { e.Write? && e.alloc && e.copied }

  /** The event makes the minor queue what put_char has collected. */
  predicate Flushes(m: Minor, e: Event) {
    m.nccip && (e.Write? || e.FlushChars? || (e.PutChar? && m.ttyskb.Some? && !e.tailroom))
  }

  /** The outbound queue before anything is sent. */
  function ToSend(m: Minor, e: Event): seq<seq<byte>> {
    m.outqueue + (if Flushes(m, e) then Collection(m) else []) + if m.nccip && Written(e) then [e.buf] else []
  }

  /** The send loop runs. */
  predicate Kicks(m: Minor, e: Event) {
    || e.Start? || e.Kick? || (m.nccip && Written(e))
    || (m.nccip && m.ttyskb.Some? && (e.FlushChars? || (e.PutChar? && !e.tailroom)))
  }

  function TxOf(e: Event): seq<TxAnswer> {
    match e
    case Write(_, _, _, tx, _) => tx
    case PutChar(_, _, _, tx) => tx
    case FlushChars(tx, _) => tx
    case Start(tx) => tx
    case Kick(tx) => tx
    case _ => []
  }

  /** The inbound queue before anything is delivered. */
  function ToDeliver(m: Minor, e: Event): seq<seq<byte>> { m.inqueue + if e.Indication? then [e.skb] else [] }

  /** The receive loop runs. */
  predicate Pulls(m: Minor, e: Event) {
    e.Indication? || e.Unthrottle? || (m.nccip && (e.Open? || e.FlushChars? || Written(e)))
  }

  function RxOf(e: Event): seq<RxAnswer> {
    match e
    case Open(rx) => rx
    case Write(_, _, _, _, rx) => rx
    case FlushChars(_, rx) => rx
    case Unthrottle(rx) => rx
    case Indication(_, rx) => rx
    case _ => []
  }

  /** Blocks queued, and blocks that have left, after an event. */
  predicate SentBy(m: Minor, n: Minor, e: Event) {
    if Kicks(m, e) then Offers(m, n, ToSend(m, e), TxOf(e))
    else n.outqueue == ToSend(m, e) && n.past.gone == m.past.gone
  }

  predicate DeliveredBy(m: Minor, n: Minor, e: Event) {
    && n.past.received == m.past.received + (if e.Indication? then [e.skb] else [])
    && if Pulls(m, e) then Delivers(m, n, ToDeliver(m, e), RxOf(e))
       else n.inqueue == m.inqueue && n.past.delivered == m.past.delivered
  }

  /** A character is accepted if there is room for it, or memory for a new block. */
  predicate Takes(m: Minor, e: Event) {
    m.nccip && e.PutChar? && (e.alloc || (m.ttyskb.Some? && e.tailroom))
  }

  /** Bytes accepted from the tty, and bytes collected, after an event. */
  predicate AcceptedBy(m: Minor, n: Minor, e: Event) {
    && n.past.accepted == m.past.accepted
       + (if m.nccip && Written(e) then e.buf else if Takes(m, e) then [e.ch] else [])
    && n.ttyskb == if Takes(m, e) then Some((if Flushes(m, e) then [] else Collected(m.ttyskb)) + [e.ch])
                   else if Flushes(m, e) then None else m.ttyskb
  }

  /** The switches of the line after an event. */
  predicate SwitchedBy(m: Minor, n: Minor, e: Event) {
    && (n.tty <==> (m.tty && !e.Close?) || (e.Open? && m.nccip))
    && (n.ttyinstop <==> (m.ttyinstop && !e.Unthrottle?) || e.Throttle?)
    && (n.ttyoutstop <==> (m.ttyoutstop && !e.Start?) || e.Stop?)
    && (n.nccip <==> m.nccip && !e.Detach?)
  }

  predicate Outcome(m: Minor, n: Minor, e: Event) {
    SentBy(m, n, e) && DeliveredBy(m, n, e) && AcceptedBy(m, n, e) && SwitchedBy(m, n, e)
  }

  lemma FlushQueues(m: Minor)
    ensures var n := Flush(m);
      && n.outqueue == m.outqueue + Collection(m) && n.ttyskb == None && n.past == m.past && SameIn(m, n)
      && SameLine(m, n)
  {
  }

  lemma Appended(q: seq<seq<byte>>)
    ensures q + [] == q && q + [] + [] == q
  {
  }

  lemma WriteOutcome(m: Minor, e: Event)
    requires e.Write? && AllInd(m.inqueue)
    ensures Outcome(m, TtyWrite(m, e), e)
  {
    FlushQueues(m);
    Appended(m.outqueue);
    Appended(m.inqueue);
    Appended(ToSend(m, e));
    if m.nccip && Written(e) { WrittenOutcome(m, e); }
  }

  lemma WrittenOutcome(m: Minor, e: Event)
    requires Written(e) && AllInd(m.inqueue) && m.nccip
    ensures Outcome(m, TtyWrite(m, e), e)
  {
    FlushQueues(m);
    Appended(m.inqueue);
    Appended(m.past.received);
    var q := Queue(Accept(Flush(m), e.buf), e.buf);
    assert q.outqueue == ToSend(m, e);
    HandleSends(q, e.tx);
    var s := HandleMinorSend(q, e.tx);
    HandleDelivers(s, e.rx);
  }

  lemma PutCharOutcome(m: Minor, e: Event)
    requires e.PutChar?
    ensures Outcome(m, TtyPutChar(m, e), e)
  {
    Appended(m.outqueue);
    Appended(m.inqueue);
    Appended(m.past.received);
    assert [] + [e.ch] == [e.ch] && m.past.accepted + [] == m.past.accepted;
    if Flushes(m, e) { FlushedOutcome(m, e); }
  }

  lemma FlushedOutcome(m: Minor, e: Event)
    requires e.PutChar? && Flushes(m, e)
    ensures Outcome(m, TtyPutChar(m, e), e)
  {
    FlushQueues(m);
    Appended(m.past.received);
    Appended(m.outqueue + Collection(m));
    assert [] + [e.ch] == [e.ch] && m.past.accepted + [] == m.past.accepted;
    HandleSends(Flush(m), e.tx);
  }

  lemma FlushOutcome(m: Minor, e: Event)
    requires e.FlushChars? && AllInd(m.inqueue)
    ensures Outcome(m, TtyFlushChars(m, e), e)
  {
    FlushQueues(m);
    Appended(m.outqueue);
    Appended(m.inqueue);
    Appended(m.past.received);
    Appended(m.outqueue + Collection(m));
    HandleSends(Flush(m), e.tx);
    var s := if m.ttyskb.Some? then HandleMinorSend(Flush(m), e.tx) else m;
    HandleDelivers(s, e.rx);
  }

  /** An event that queues and sends nothing. */
  lemma NothingSent(m: Minor, n: Minor, e: Event)
    requires SameOut(m, n) && !e.Write? && !e.PutChar? && !e.FlushChars? && !e.Start? && !e.Kick?
    ensures SentBy(m, n, e) && AcceptedBy(m, n, e)
  {
    Appended(m.outqueue);
    assert m.past.accepted + [] == m.past.accepted;
  }

  lemma IndicationOutcome(m: Minor, e: Event)
    requires Enabled(e) && e.Indication? && AllInd(m.inqueue)
    ensures Outcome(m, Step(m, e), e)
  {
    var a := Arrive(m, e.skb);
    HandleDelivers(a, e.rx);
    NothingSent(m, HandleMinorRecv(a, e.rx), e);
  }

  lemma OpenOutcome(m: Minor, e: Event)
    requires AllInd(m.inqueue) && e.Open? && m.nccip
    ensures Outcome(m, Step(m, e), e)
  {
    Appended(m.inqueue);
    Appended(m.past.received);
    var a := m.(tty := true);
    HandleDelivers(a, e.rx);
    NothingSent(m, HandleMinorRecv(a, e.rx), e);
  }

  lemma UnthrottleOutcome(m: Minor, e: Event)
    requires AllInd(m.inqueue) && e.Unthrottle?
    ensures Outcome(m, Step(m, e), e)
  {
    Appended(m.inqueue);
    Appended(m.past.received);
    var a := m.(ttyinstop := false);
    HandleDelivers(a, e.rx);
    NothingSent(m, HandleMinorRecv(a, e.rx), e);
  }

  lemma KickOutcome(m: Minor, e: Event)
    requires AllInd(m.inqueue) && (e.Start? || e.Kick?)
    ensures Outcome(m, Step(m, e), e)
  {
    assert m.past.accepted + [] == m.past.accepted;
    Appended(m.outqueue);
    Appended(m.past.received);
    if e.Start? { HandleSends(m.(ttyoutstop := false), e.tx); } else { HandleSends(m, e.tx); }
  }

  lemma SwitchOutcome(m: Minor, e: Event)
    requires AllInd(m.inqueue)
    requires e.Close? || e.Throttle? || e.Stop? || e.Detach? || (e.Open? && !m.nccip)
    ensures Outcome(m, Step(m, e), e)
  {
    Appended(m.past.received);
    NothingSent(m, Step(m, e), e);
  }

  lemma ConfirmOutcome(m: Minor, e: Event)
    requires AllInd(m.inqueue) && e.Confirmation?
    ensures Outcome(m, Step(m, e), e)
  {
    assert m.past.accepted + [] == m.past.accepted;
    Appended(m.outqueue);
    Appended(m.past.received);
  }

  /** Every event: the bytes it makes the minor accept, the blocks it makes leave and arrive, and the state of
      the line.  As much is sent and delivered as the line and the answers allow. */
  lemma StepOutcome(m: Minor, e: Event)
    requires Enabled(e) && AllInd(m.inqueue)
    ensures Outcome(m, Step(m, e), e)
  {
    if e.Write? { WriteOutcome(m, e); }
    else if e.PutChar? { PutCharOutcome(m, e); }
    else if e.FlushChars? { FlushOutcome(m, e); }
    else if e.Indication? { IndicationOutcome(m, e); }
    else if e.Open? && m.nccip { OpenOutcome(m, e); }
    else if e.Unthrottle? { UnthrottleOutcome(m, e); }
    else if e.Start? || e.Kick? { KickOutcome(m, e); }
    else if e.Confirmation? { ConfirmOutcome(m, e); }
    else { SwitchOutcome(m, e); }
  }

  /** With the tty open and not stopped, what is written is handed on at once if the stack takes it. */
  lemma WrittenSent(m: Minor, e: Event)
    requires Written(e) && AllInd(m.inqueue) && m.nccip && m.tty && !m.ttyoutstop
    requires |ToSend(m, e)| <= |e.tx| && forall i :: 0 <= i < |ToSend(m, e)| ==> e.tx[i].Taken?
    ensures var n := Step(m, e);
      && n.outqueue == [] && n.past.accepted == m.past.accepted + e.buf
      && n.past.gone != [] && n.past.gone[|n.past.gone| - 1] == Gone(e.buf, true)
  {
    StepOutcome(m, e);
    LeavingMeans(|ToSend(m, e)|, e.tx);
    assert Leaving(|ToSend(m, e)|, e.tx) == |ToSend(m, e)|;
  }

  /** With the tty open and not throttled, a block that is accepted is delivered at once. */
  lemma IndicatedDelivered(m: Minor, skb: seq<byte>, rx: seq<RxAnswer>)
    requires IsInd(skb) && AllInd(m.inqueue) && Listens(m)
    requires |m.inqueue| < |rx| && forall i :: 0 <= i <= |m.inqueue| ==> rx[i] == Accepted
    ensures var n := Step(m, Indication(skb, rx));
      n.inqueue == [] && n.past.delivered == m.past.delivered + (m.inqueue + [skb])
  {
    StepOutcome(m, Indication(skb, rx));
    PassingMeans(|m.inqueue| + 1, rx);
    assert Passing(|m.inqueue| + 1, rx) == |m.inqueue| + 1;
  }

  /** A confirmation removes the entry of the very block it is for, and nothing else happens. */
  lemma ConfirmationOutcome(m: Minor, k: nat)
    requires AllInd(m.inqueue) && Inv(m) && m.past.near && Near(m.ackqueue, m.past.sends) && k < |m.ackqueue|
    ensures var n := Step(m, Confirmation(Handle(m.ackqueue[k].no)));
      n == m.(ackqueue := m.ackqueue[..k] + m.ackqueue[k + 1..], nack := m.nack - 1)
  {
    ConfirmsOwn(m, k);
  }
}
