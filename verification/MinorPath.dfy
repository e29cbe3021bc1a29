/** The tty middleware of capi.c as a state machine: what each tty or message event does to the queues,
    counters and handles of a minor, and what holds after every run of events. */
module MinorPath {
  import opened Wire
  import opened AckQueue
  import opened Messages
  import opened Programs

  /** A block that has left the outbound queue, taken by the stack or dropped on a hard error. */
  datatype Gone = Gone(payload: seq<byte>, taken: bool)

  /** What has happened to a minor so far; only the properties speak of it. */
  datatype History = History(
    accepted: seq<byte>, gone: seq<Gone>, sends: nat, near: bool, requests: seq<seq<byte>>,
    received: seq<seq<byte>>, delivered: seq<seq<byte>>, responses: seq<seq<byte>>, heard: seq<byte>)

  datatype Minor = Minor(
    applId: word, ncci: dword, nccip: bool, msgid: word, datahandle: word,
    ackqueue: seq<Ack<seq<byte>>>, nack: int,
    inqueue: seq<seq<byte>>, inbytes: int, outqueue: seq<seq<byte>>, outbytes: int,
    ttyskb: Option<seq<byte>>, tty: bool, ttyinstop: bool, ttyoutstop: bool, past: History)

  const NEW_HISTORY := History([], [], 0, true, [], [], [], [], [])

  function Fresh(applId: word, ncci: dword): Minor {
    Minor(applId, ncci, true, 0, 0, [], 0, [], 0, [], 0, None, false, false, false, NEW_HISTORY)
  }

  // ----- sending -----

  /** What the environment answers to one attempt to send: where the block lies in memory, and no memory
      for the acknowledgement entry or what put_capi_message returns. */
  datatype TxAnswer =
    | NoAckMemory(address: dword)
    | Taken(address: dword)
    | QueueFull(address: dword)
    | Refused(address: dword)

  function FirstTx(tx: seq<TxAnswer>): TxAnswer { if tx == [] then NoAckMemory(0) else tx[0] }

  function Rest<T>(s: seq<T>): seq<T> { if s == [] then [] else s[1..] }

  function Next(w: word): word { (w + 1) % WORDS }

  function Dequeued(m: Minor): Minor
    requires m.outqueue != []
  {
    m.(msgid := Next(m.msgid), outqueue := m.outqueue[1..])
  }

  function Requeued(m: Minor, b: seq<byte>): Minor {
    m.(outqueue := [b] + m.outqueue)
  }

  function Noted(m: Minor, b: seq<byte>): Minor {
    m.(ackqueue := m.ackqueue + [Ack(m.datahandle, m.past.sends, b)], nack := m.nack + 1,
       past := m.past.(near := m.past.near && Near(m.ackqueue, m.past.sends)))
  }

  /** The header that handle_minor_send puts in front of a block. */
  function RequestFor(applId: word, number: word, ncci: dword, address: dword, handle: word, b: seq<byte>): seq<byte> {
    DataB3ReqMessage(applId, number, FillDataB3Req(ncci, address, |b| % WORDS, handle, 0))
  }

  function HandedOn(m: Minor, b: seq<byte>, head: seq<byte>): Minor {
    m.(datahandle := Next(m.datahandle), outbytes := m.outbytes - |b| % WORDS,
       past := m.past.(gone := m.past.gone + [Gone(b, true)], sends := m.past.sends + 1,
                       requests := m.past.requests + [head]))
  }

  function Dropped(m: Minor, b: seq<byte>): Minor {
    m.(outbytes := m.outbytes - |b| % WORDS, past := m.past.(gone := m.past.gone + [Gone(b, false)]))
  }

  function DelAck(m: Minor, handle: word): Minor {
    var found := Find(m.ackqueue, handle) < |m.ackqueue|;
    m.(ackqueue := Del(m.ackqueue, handle), nack := if found then m.nack - 1 else m.nack)
  }

  /** One round of the loop in handle_minor_send; false when it ends the loop. */
  function SendOne(m: Minor, a: TxAnswer): (r: (Minor, bool))
    requires m.outqueue != []
    ensures r.0.inqueue == m.inqueue && (r.1 ==> r.0.outqueue == m.outqueue[1..])
  {
    var b := m.outqueue[0];
    var d := Dequeued(m);
    var n := Noted(d, b);
    var f := DelAck(n, n.datahandle);
    if a.NoAckMemory? then (Requeued(d, b), false)
    else if a.Taken? then (HandedOn(n, b, RequestFor(m.applId, m.msgid, m.ncci, a.address, m.datahandle, b)), true)
    else if a.QueueFull? then (Requeued(f, b), false)
    else (Dropped(f, b), true)
  }

  function SendAll(m: Minor, tx: seq<TxAnswer>): (n: Minor)
    ensures n.inqueue == m.inqueue
    decreases |m.outqueue|
  {
    if m.outqueue == [] then m
    else
      var (n, go) := SendOne(m, FirstTx(tx));
      if go then SendAll(n, Rest(tx)) else n
  }

  lemma SendAllStep(m: Minor, tx: seq<TxAnswer>, n: Minor, go: bool)
    requires m.outqueue != [] && (n, go) == SendOne(m, FirstTx(tx))
    ensures SendAll(m, tx) == if go then SendAll(n, Rest(tx)) else n
  {
  }

  function HandleMinorSend(m: Minor, tx: seq<TxAnswer>): (n: Minor)
    ensures n.inqueue == m.inqueue
  {
    if m.tty && m.ttyoutstop then m else SendAll(m, tx)
  }

  // ----- receiving -----

  /** What stands in the way of one block on its way to the tty: the line discipline has no receive_buf,
      has no room, there is no memory for the response, or put_capi_message fails. */
  datatype RxAnswer = NoLdisc | NoRoom | NoMemory | PutFails | Accepted

  function FirstRx(rx: seq<RxAnswer>): RxAnswer { if rx == [] then NoMemory else rx[0] }

  /** A received DATA_B3_IND: its header is complete and its length word does not exceed it. */
  predicate IsInd(skb: seq<byte>) {
    22 <= |skb| && U16(skb, 0) <= |skb|
  }

  /** What is left when the message in front of the data has been pulled off. */
  function Payload(skb: seq<byte>): seq<byte>
    requires IsInd(skb)
  {
    skb[U16(skb, 0)..]
  }

  /** gen_data_b3_resp_for. */
  function ResponseTo(applId: word, number: word, ncci: dword, skb: seq<byte>): seq<byte>
    requires IsInd(skb)
  {
    DataB3RespMessage(applId, number, FillDataB3Resp(ncci, U16(skb, 18)))
  }

  function TakenIn(m: Minor): Minor
    requires m.inqueue != []
  {
    m.(inqueue := m.inqueue[1..], inbytes := m.inbytes - |m.inqueue[0]|)
  }

  /** handle_recv_skb for a block that has been taken off the queue. */
  function Offered(m: Minor, skb: seq<byte>, a: RxAnswer): (Minor, bool)
    requires IsInd(skb)
  {
    if !m.tty || a == NoLdisc || m.ttyinstop || a == NoRoom || a == NoMemory then (m, false)
    else if a == PutFails then (m.(msgid := Next(m.msgid)), false)
    else
      (m.(msgid := Next(m.msgid),
          past := m.past.(delivered := m.past.delivered + [skb],
                          responses := m.past.responses + [ResponseTo(m.applId, m.msgid, m.ncci, skb)],
                          heard := m.past.heard + Payload(skb))), true)
  }

  function ReturnedIn(m: Minor, skb: seq<byte>): Minor {
    m.(inqueue := [skb] + m.inqueue, inbytes := m.inbytes + |skb|)
  }

  /** One round of the loop in handle_minor_recv; false when it ends the loop. */
  function RecvOne(m: Minor, a: RxAnswer): (r: (Minor, bool))
    requires m.inqueue != [] && IsInd(m.inqueue[0])
  {
    var skb := m.inqueue[0];
    var (n, ok) := Offered(TakenIn(m), skb, a);
    if ok then (n, true) else (ReturnedIn(n, skb), false)
  }

  predicate AllInd(q: seq<seq<byte>>) {
    forall i :: 0 <= i < |q| ==> IsInd(q[i])
  }

  function HandleMinorRecv(m: Minor, rx: seq<RxAnswer>): (n: Minor)
    requires AllInd(m.inqueue)
    ensures AllInd(n.inqueue)
    decreases |m.inqueue|
  {
    if m.inqueue == [] then m
    else
      var (n, go) := RecvOne(m, FirstRx(rx));
      if go then HandleMinorRecv(n, Rest(rx)) else n
  }

  // ----- events -----

  datatype Event =
    | Open(rx: seq<RxAnswer>)
    | Close
    | Write(buf: seq<byte>, alloc: bool, copied: bool, tx: seq<TxAnswer>, rx: seq<RxAnswer>)
    | PutChar(ch: byte, tailroom: bool, alloc: bool, tx: seq<TxAnswer>)
    | FlushChars(tx: seq<TxAnswer>, rx: seq<RxAnswer>)
    | Throttle
    | Unthrottle(rx: seq<RxAnswer>)
    | Stop
    | Start(tx: seq<TxAnswer>)
    | Indication(skb: seq<byte>, rx: seq<RxAnswer>)
    | Confirmation(handle: word)
    | Kick(tx: seq<TxAnswer>)
    | Detach

  predicate Enabled(e: Event) { e.Indication? ==> IsInd(e.skb) }

  /** Put a block at the end of the outbound queue. */
  function Queue(m: Minor, b: seq<byte>): (n: Minor)
    ensures n.inqueue == m.inqueue
  {
    m.(outqueue := m.outqueue + [b], outbytes := m.outbytes + |b|)
  }

  /** Queue what put_char has collected so far. */
  function Flush(m: Minor): Minor {
    match m.ttyskb
    case None => m
    case Some(b) => Queue(m.(ttyskb := None), b)
  }

  function Accept(m: Minor, b: seq<byte>): Minor {
    m.(past := m.past.(accepted := m.past.accepted + b))
  }

  function TtyWrite(m: Minor, e: Event): (n: Minor)
    ensures AllInd(n.inqueue)
    requires e.Write? && AllInd(m.inqueue)
  {
    if !m.nccip then m
    else if !e.alloc || !e.copied then Flush(m)
    else
      var n := HandleMinorSend(Queue(Accept(Flush(m), e.buf), e.buf), e.tx);
      HandleMinorRecv(n, e.rx)
  }

  function TtyPutChar(m: Minor, e: Event): (n: Minor)
    ensures n.inqueue == m.inqueue
    requires e.PutChar?
  {
    if !m.nccip then m
    else if m.ttyskb.Some? && e.tailroom then Accept(m.(ttyskb := Some(m.ttyskb.value + [e.ch])), [e.ch])
    else
      var n := if m.ttyskb.Some? then HandleMinorSend(Flush(m), e.tx) else m;
      if e.alloc then Accept(n.(ttyskb := Some([e.ch])), [e.ch]) else n
  }

  function TtyFlushChars(m: Minor, e: Event): (n: Minor)
    ensures AllInd(n.inqueue)
    requires e.FlushChars? && AllInd(m.inqueue)
  {
    if !m.nccip then m
    else
      var n := if m.ttyskb.Some? then HandleMinorSend(Flush(m), e.tx) else m;
      HandleMinorRecv(n, e.rx)
  }

  function Arrive(m: Minor, skb: seq<byte>): (n: Minor)
    requires AllInd(m.inqueue) && IsInd(skb)
    ensures AllInd(n.inqueue)
  {
    m.(inqueue := m.inqueue + [skb], inbytes := m.inbytes + |skb|,
       past := m.past.(received := m.past.received + [skb]))
  }

  function Step(m: Minor, e: Event): (n: Minor)
    ensures AllInd(n.inqueue)
    requires Enabled(e) && AllInd(m.inqueue)
  {
    match e
    case Open(rx) => if m.nccip then HandleMinorRecv(m.(tty := true), rx) else m
    case Close => m.(tty := false)
    case Write(_, _, _, _, _) => TtyWrite(m, e)
    case PutChar(_, _, _, _) => TtyPutChar(m, e)
    case FlushChars(_, _) => TtyFlushChars(m, e)
    case Throttle => m.(ttyinstop := true)
    case Unthrottle(rx) => HandleMinorRecv(m.(ttyinstop := false), rx)
    case Stop => m.(ttyoutstop := true)
    case Start(tx) => HandleMinorSend(m.(ttyoutstop := false), tx)
    case Indication(skb, rx) => HandleMinorRecv(Arrive(m, skb), rx)
    case Confirmation(handle) => DelAck(m, handle)
    case Kick(tx) => HandleMinorSend(m, tx)
    case Detach => m.(nccip := false)
  }

  function Run(m: Minor, es: seq<Event>): (n: Minor)
    requires AllInd(m.inqueue) && forall i :: 0 <= i < |es| ==> Enabled(es[i])
    ensures AllInd(n.inqueue)
    decreases |es|
  {
    if es == [] then m
    else
      Run(Step(m, es[0]), es[1..])
  }

  // ----- what every run keeps -----

  function Flat(q: seq<seq<byte>>): seq<byte> {
    if q == [] then [] else q[0] + Flat(q[1..])
  }

  function Bytes(q: seq<seq<byte>>): nat {
    if q == [] then 0 else |q[0]| + Bytes(q[1..])
  }

  lemma {:induction false} FlatAppend(q: seq<seq<byte>>, b: seq<byte>)
    ensures Flat(q + [b]) == Flat(q) + b && Bytes(q + [b]) == Bytes(q) + |b|
  {
    if q == [] {
      assert [b][1..] == [];
    } else {
      assert (q + [b])[1..] == q[1..] + [b];
      FlatAppend(q[1..], b);
      Assoc(q[0], Flat(q[1..]), b);
    }
  }

  /** The payloads that have left the queue, in order. */
  function GoneBytes(g: seq<Gone>): seq<byte> {
    if g == [] then [] else GoneBytes(g[..|g| - 1]) + g[|g| - 1].payload
  }

  /** By how much the 16-bit length variable of handle_minor_send has undercounted them. */
  function Drift(g: seq<Gone>): nat {
    if g == [] then 0 else Drift(g[..|g| - 1]) + |g[|g| - 1].payload| / WORDS * WORDS
  }

  /** The payloads the stack has taken, in order. */
  function TakenOf(g: seq<Gone>): seq<seq<byte>> {
    if g == [] then []
    else TakenOf(g[..|g| - 1]) + if g[|g| - 1].taken then [g[|g| - 1].payload] else []
  }

  function Collected(t: Option<seq<byte>>): seq<byte> {
    match t
    case None => []
    case Some(b) => b
  }

  /** No byte accepted from the tty is lost, repeated or reordered: it is in a block that has left, in the
      queue, or in the block being collected. */
  predicate Conserved(m: Minor) {
    m.past.accepted == GoneBytes(m.past.gone) + (Flat(m.outqueue) + Collected(m.ttyskb))
  }

  /** outbytes counts the queued bytes, up to what the 16-bit length has undercounted. */
  predicate Counted(m: Minor) {
    m.outbytes == Bytes(m.outqueue) + Drift(m.past.gone)
  }

  /** The handles and the acknowledgement queue: while no send met a block 65536 sends old, the queue holds
      blocks that were taken, in the order of sending. */
  predicate Acks(m: Minor) {
    AckState(m.ackqueue, m.nack, m.datahandle, m.past.gone, m.past.sends, m.past.near)
  }

  predicate AckState(q: seq<Ack<seq<byte>>>, nack: int, datahandle: word, gone: seq<Gone>, sends: nat, near: bool) {
    && nack == |q| && sends == |TakenOf(gone)| && datahandle == Handle(sends)
    && (near ==> Current(q, sends) && forall i :: 0 <= i < |q| ==> q[i].what == TakenOf(gone)[q[i].no])
  }

  /** Each taken block has travelled under a header of its own: its length, and a handle that counts the
      blocks taken before it. */
  predicate Headed(m: Minor) {
    HeadedBy(m.past.requests, TakenOf(m.past.gone), m.applId, m.ncci)
  }

  predicate HeadedBy(requests: seq<seq<byte>>, blocks: seq<seq<byte>>, applId: word, ncci: dword) {
    && |requests| == |blocks|
    && forall i :: 0 <= i < |requests| ==> Requests(requests[i], applId, ncci, blocks[i], i)
  }

  predicate Requests(head: seq<byte>, applId: word, ncci: dword, b: seq<byte>, no: nat) {
    exists number: word, address: dword :: head == RequestFor(applId, number, ncci, address, Handle(no), b)
  }

  predicate Answers(resp: seq<byte>, applId: word, ncci: dword, skb: seq<byte>) {
    IsInd(skb) && exists number: word :: resp == ResponseTo(applId, number, ncci, skb)
  }

  /** The data of the delivered blocks, in order. */
  function PayloadBytes(d: seq<seq<byte>>): seq<byte>
    requires AllInd(d)
  {
    if d == [] then [] else PayloadBytes(d[..|d| - 1]) + Payload(d[|d| - 1])
  }

  /** Received blocks are delivered once each and in order; each delivered block, and no other, has had its
      own DATA_B3_RESP accepted; the tty has got their data and nothing else; inbytes counts what is
      waiting. */
  predicate Inbound(m: Minor) {
    && m.past.received == m.past.delivered + m.inqueue && m.inbytes == Bytes(m.inqueue)
    && AllInd(m.inqueue) && |m.past.responses| == |m.past.delivered|
    && AllInd(m.past.delivered) && m.past.heard == PayloadBytes(m.past.delivered)
    && forall i :: 0 <= i < |m.past.responses| ==>
         Answers(m.past.responses[i], m.applId, m.ncci, m.past.delivered[i])
  }

  lemma GoneAppend(g: seq<Gone>, b: seq<byte>, taken: bool)
    ensures GoneBytes(g + [Gone(b, taken)]) == GoneBytes(g) + b
    ensures Drift(g + [Gone(b, taken)]) == Drift(g) + |b| / WORDS * WORDS
    ensures TakenOf(g + [Gone(b, taken)]) == TakenOf(g) + if taken then [b] else []
  {
    assert (g + [Gone(b, taken)])[..|g|] == g;
  }

  lemma SendOneConserves(m: Minor, a: TxAnswer)
    requires m.outqueue != [] && Conserved(m) && Counted(m)
    ensures var n := SendOne(m, a).0; Conserved(n) && Counted(n)
  {
    var b, q := m.outqueue[0], m.outqueue[1..];
    assert [b] + q == m.outqueue;
    GoneAppend(m.past.gone, b, a.Taken?);
    Assoc(b, Flat(q), Collected(m.ttyskb));
    Assoc(GoneBytes(m.past.gone), b, Flat(q) + Collected(m.ttyskb));
  }

  lemma AckTaken(q: seq<Ack<seq<byte>>>, nack: int, h: word, gone: seq<Gone>, sends: nat, near: bool, b: seq<byte>)
    requires AckState(q, nack, h, gone, sends, near)
    ensures AckState(q + [Ack(h, sends, b)], nack + 1, Next(h), gone + [Gone(b, true)], sends + 1, near)
  {
    GoneAppend(gone, b, true);
    if near { AddCurrent(q, sends, b); }
  }

  /** A failed put takes the new entry back: with near handles it is the very entry that was added. */
  lemma AckFailed(q: seq<Ack<seq<byte>>>, nack: int, h: word, gone: seq<Gone>, sends: nat, near: bool, b: seq<byte>)
    requires AckState(q, nack, h, gone, sends, near)
    ensures var r := Del(q + [Ack(h, sends, b)], h);
      && AckState(r, nack, h, gone, sends, near && Near(q, sends))
      && AckState(r, nack, h, gone + [Gone(b, false)], sends, near && Near(q, sends))
      && Find(q + [Ack(h, sends, b)], h) < |q| + 1
  {
    var ack := Ack(h, sends, b);
    GoneAppend(gone, b, false);
    FindAppend(q, ack);
    if near && Near(q, sends) {
      NextUnused(q, sends);
      TakenBack(q, sends, b);
      assert Del(q + [ack], h) == q;
    }
  }

  /** The entries that SendOne leaves. */
  lemma SendOneQueue(m: Minor, a: TxAnswer)
    requires m.outqueue != [] && !a.NoAckMemory?
    ensures var n := SendOne(m, a).0;
      var q := m.ackqueue + [Ack(m.datahandle, m.past.sends, m.outqueue[0])];
      && n.past.near == (m.past.near && Near(m.ackqueue, m.past.sends))
      && n.past.sends == (if a.Taken? then m.past.sends + 1 else m.past.sends)
      && n.datahandle == (if a.Taken? then Next(m.datahandle) else m.datahandle)
      && n.ackqueue == (if a.Taken? then q else Del(q, m.datahandle))
      && n.nack == (if a.Taken? then m.nack + 1 else m.nack)
      && n.applId == m.applId && n.ncci == m.ncci
      && var head := RequestFor(m.applId, m.msgid, m.ncci, a.address, m.datahandle, m.outqueue[0]);
      && n.past.requests == (if a.Taken? then m.past.requests + [head] else m.past.requests)
      && n.past.gone == if a.QueueFull? then m.past.gone else m.past.gone + [Gone(m.outqueue[0], a.Taken?)]
  {
    FindAppend(m.ackqueue, Ack(m.datahandle, m.past.sends, m.outqueue[0]));
  }

  lemma SendOneAcks(m: Minor, a: TxAnswer)
    requires m.outqueue != [] && Acks(m)
    ensures Acks(SendOne(m, a).0)
  {
    if !a.NoAckMemory? {
      var b, q, sends := m.outqueue[0], m.ackqueue, m.past.sends;
      SendOneQueue(m, a);
      if a.Taken? { AckTaken(q, m.nack, m.datahandle, m.past.gone, sends, m.past.near && Near(q, sends), b); }
      else { AckFailed(q, m.nack, m.datahandle, m.past.gone, sends, m.past.near, b); }
    }
  }

  lemma SendOneHeaded(m: Minor, a: TxAnswer)
    requires m.outqueue != [] && Acks(m) && Headed(m)
    ensures Headed(SendOne(m, a).0)
  {
    if !a.NoAckMemory? {
      var b := m.outqueue[0];
      GoneAppend(m.past.gone, b, a.Taken?);
      SendOneQueue(m, a);
      if a.Taken? {
        HeadedTaken(m.past.requests, TakenOf(m.past.gone), m.applId, m.ncci, m.msgid, a.address, b);
      } else {
        assert TakenOf(SendOne(m, a).0.past.gone) == TakenOf(m.past.gone);
      }
    }
  }

  lemma HeadedTaken(requests: seq<seq<byte>>, blocks: seq<seq<byte>>, applId: word, ncci: dword,
      number: word, address: dword, b: seq<byte>)
    requires HeadedBy(requests, blocks, applId, ncci)
    ensures var head := RequestFor(applId, number, ncci, address, Handle(|requests|), b);
      HeadedBy(requests + [head], blocks + [b], applId, ncci)
  {
    var head := RequestFor(applId, number, ncci, address, Handle(|requests|), b);
    assert Requests(head, applId, ncci, b, |requests|);
  }

  lemma {:induction false} SendAllKeeps(m: Minor, tx: seq<TxAnswer>)
    requires Conserved(m) && Counted(m) && Acks(m) && Headed(m)
    ensures var n := SendAll(m, tx); Conserved(n) && Counted(n) && Acks(n) && Headed(n)
    decreases |m.outqueue|
  {
    if m.outqueue != [] {
      SendOneConserves(m, FirstTx(tx));
      SendOneAcks(m, FirstTx(tx));
      SendOneHeaded(m, FirstTx(tx));
      if SendOne(m, FirstTx(tx)).1 { SendAllKeeps(SendOne(m, FirstTx(tx)).0, Rest(tx)); }
    }
  }

  lemma RecvOneStays(m: Minor, a: RxAnswer)
    requires AllInd(m.inqueue) && m.inqueue != [] && !RecvOne(m, a).1
    ensures exists id: word :: RecvOne(m, a).0 == m.(msgid := id)
  {
    assert m.inqueue == [m.inqueue[0]] + m.inqueue[1..];
    assert m == m.(msgid := m.msgid);
  }

  lemma DeliverAppend(d: seq<seq<byte>>, skb: seq<byte>)
    requires AllInd(d) && IsInd(skb)
    ensures AllInd(d + [skb]) && PayloadBytes(d + [skb]) == PayloadBytes(d) + Payload(skb)
  {
    assert (d + [skb])[..|d|] == d;
  }

  lemma DeliveredInbound(m: Minor, a: RxAnswer)
    requires Inbound(m) && m.inqueue != [] && RecvOne(m, a).1
    ensures Inbound(RecvOne(m, a).0)
  {
    var skb, d := m.inqueue[0], m.past.delivered;
    assert m.inqueue == [skb] + m.inqueue[1..];
    assert d + m.inqueue == (d + [skb]) + m.inqueue[1..];
    assert Answers(ResponseTo(m.applId, m.msgid, m.ncci, skb), m.applId, m.ncci, skb);
    DeliverAppend(d, skb);
  }

  lemma RecvOneInbound(m: Minor, a: RxAnswer)
    requires Inbound(m) && m.inqueue != []
    ensures Inbound(RecvOne(m, a).0)
  {
    if RecvOne(m, a).1 {
      DeliveredInbound(m, a);
    } else {
      RecvOneStays(m, a);
    }
  }

  lemma {:induction false} RecvAllInbound(m: Minor, rx: seq<RxAnswer>)
    requires Inbound(m)
    ensures Inbound(HandleMinorRecv(m, rx))
    decreases |m.inqueue|
  {
    if m.inqueue != [] {
      RecvOneInbound(m, FirstRx(rx));
      if RecvOne(m, FirstRx(rx)).1 { RecvAllInbound(RecvOne(m, FirstRx(rx)).0, Rest(rx)); }
    }
  }

  // ----- frames -----

  /** Sending leaves the receiving side alone, and the other way round. */
  predicate SameIn(m: Minor, n: Minor) {
    && n.inqueue == m.inqueue && n.inbytes == m.inbytes && n.past.received == m.past.received
    && n.past.delivered == m.past.delivered && n.past.responses == m.past.responses && n.past.heard == m.past.heard
    && n.applId == m.applId && n.ncci == m.ncci
  }

  predicate SameOut(m: Minor, n: Minor) {
    && n.outqueue == m.outqueue && n.outbytes == m.outbytes && n.ttyskb == m.ttyskb && n.ackqueue == m.ackqueue
    && n.nack == m.nack && n.datahandle == m.datahandle && n.past.accepted == m.past.accepted
    && n.past.gone == m.past.gone && n.past.sends == m.past.sends && n.past.near == m.past.near
    && n.past.requests == m.past.requests && n.applId == m.applId && n.ncci == m.ncci
  }

  predicate SameLine(m: Minor, n: Minor) {
    n.tty == m.tty && n.ttyinstop == m.ttyinstop && n.ttyoutstop == m.ttyoutstop && n.nccip == m.nccip
  }

  lemma SendOneFrame(m: Minor, a: TxAnswer)
    requires m.outqueue != []
    ensures SameIn(m, SendOne(m, a).0) && SameLine(m, SendOne(m, a).0)
  {
    if a.Taken? { TakenFrame(m, a); } else { NotTakenFrame(m, a); }
  }

  lemma TakenFrame(m: Minor, a: TxAnswer)
    requires m.outqueue != [] && a.Taken?
    ensures SameIn(m, SendOne(m, a).0) && SameLine(m, SendOne(m, a).0)
  {
  }

  lemma NotTakenFrame(m: Minor, a: TxAnswer)
    requires m.outqueue != [] && !a.Taken?
    ensures SameIn(m, SendOne(m, a).0) && SameLine(m, SendOne(m, a).0)
  {
  }

  lemma {:induction false} SendAllFrame(m: Minor, tx: seq<TxAnswer>)
    ensures SameIn(m, SendAll(m, tx)) && SameLine(m, SendAll(m, tx))
    decreases |m.outqueue|
  {
    if m.outqueue != [] {
      SendOneFrame(m, FirstTx(tx));
      if SendOne(m, FirstTx(tx)).1 { SendAllFrame(SendOne(m, FirstTx(tx)).0, Rest(tx)); }
    }
  }

  lemma {:induction false} RecvAllFrame(m: Minor, rx: seq<RxAnswer>)
    requires AllInd(m.inqueue)
    ensures SameOut(m, HandleMinorRecv(m, rx)) && SameLine(m, HandleMinorRecv(m, rx))
    decreases |m.inqueue|
  {
    if m.inqueue != [] && RecvOne(m, FirstRx(rx)).1 {
      RecvAllFrame(RecvOne(m, FirstRx(rx)).0, Rest(rx));
    }
  }

  predicate Inv(m: Minor) {
    Conserved(m) && Counted(m) && Acks(m) && Headed(m) && Inbound(m)
  }

  lemma SendKeeps(m: Minor, tx: seq<TxAnswer>)
    requires Inv(m)
    ensures Inv(HandleMinorSend(m, tx))
  {
    SendAllKeeps(m, tx);
    SendAllFrame(m, tx);
  }

  lemma RecvKeeps(m: Minor, rx: seq<RxAnswer>)
    requires Inv(m)
    ensures Inv(HandleMinorRecv(m, rx))
  {
    RecvAllInbound(m, rx);
    RecvAllFrame(m, rx);
  }

  lemma FlushKeeps(m: Minor)
    requires Inv(m)
    ensures Inv(Flush(m)) && Flush(m).ttyskb == None
  {
    if m.ttyskb.Some? { FlatAppend(m.outqueue, m.ttyskb.value); }
  }

  lemma QueueKeeps(m: Minor, b: seq<byte>)
    requires Inv(m) && m.ttyskb == None
    ensures Inv(Queue(Accept(m, b), b))
  {
    FlatAppend(m.outqueue, b);
    Assoc(GoneBytes(m.past.gone), Flat(m.outqueue), b);
    assert Flat(m.outqueue) + [] == Flat(m.outqueue) && Flat(m.outqueue) + b + [] == Flat(m.outqueue) + b;
  }

  lemma CollectKeeps(m: Minor, ch: byte)
    requires Inv(m)
    ensures Inv(Accept(m.(ttyskb := Some(Collected(m.ttyskb) + [ch])), [ch]))
  {
    Assoc(Flat(m.outqueue), Collected(m.ttyskb), [ch]);
    Assoc(GoneBytes(m.past.gone), Flat(m.outqueue) + Collected(m.ttyskb), [ch]);
  }

  lemma WriteKeeps(m: Minor, e: Event)
    requires Inv(m) && e.Write?
    ensures Inv(TtyWrite(m, e))
  {
    FlushKeeps(m);
    if m.nccip && e.alloc && e.copied {
      var q := Queue(Accept(Flush(m), e.buf), e.buf);
      QueueKeeps(Flush(m), e.buf);
      SendKeeps(q, e.tx);
      RecvKeeps(HandleMinorSend(q, e.tx), e.rx);
    }
  }

  lemma SendKeepsBuffer(m: Minor, tx: seq<TxAnswer>)
    ensures HandleMinorSend(m, tx).ttyskb == m.ttyskb
  {
    SendAllBuffer(m, tx);
  }

  lemma SendOneBuffer(m: Minor, a: TxAnswer)
    requires m.outqueue != []
    ensures SendOne(m, a).0.ttyskb == m.ttyskb
  {
  }

  lemma {:induction false} SendAllBuffer(m: Minor, tx: seq<TxAnswer>)
    ensures SendAll(m, tx).ttyskb == m.ttyskb
    decreases |m.outqueue|
  {
    if m.outqueue != [] {
      SendOneBuffer(m, FirstTx(tx));
      if SendOne(m, FirstTx(tx)).1 { SendAllBuffer(SendOne(m, FirstTx(tx)).0, Rest(tx)); }
    }
  }

  lemma PutCharKeeps(m: Minor, e: Event)
    requires Inv(m) && e.PutChar?
    ensures Inv(TtyPutChar(m, e))
  {
    if m.ttyskb.Some? && e.tailroom {
      CollectKeeps(m, e.ch);
    } else {
      var n := if m.ttyskb.Some? then HandleMinorSend(Flush(m), e.tx) else m;
      if m.ttyskb.Some? {
        FlushKeeps(m);
        SendKeeps(Flush(m), e.tx);
        SendKeepsBuffer(Flush(m), e.tx);
      }
      CollectKeeps(n, e.ch);
      assert Collected(n.ttyskb) + [e.ch] == [e.ch];
    }
  }

  lemma FlushCharsKeeps(m: Minor, e: Event)
    requires Inv(m) && e.FlushChars?
    ensures Inv(TtyFlushChars(m, e))
  {
    var n := if m.ttyskb.Some? then HandleMinorSend(Flush(m), e.tx) else m;
    FlushKeeps(m);
    SendKeeps(Flush(m), e.tx);
    RecvKeeps(n, e.rx);
  }

  lemma ArriveKeeps(m: Minor, skb: seq<byte>)
    requires Inv(m) && IsInd(skb)
    ensures Inv(Arrive(m, skb))
  {
    FlatAppend(m.inqueue, skb);
  }

  lemma ConfirmationKeeps(m: Minor, handle: word)
    requires Inv(m)
    ensures Inv(DelAck(m, handle))
  {
    var n := DelAck(m, handle);
    assert Inbound(n) && Conserved(n) && Counted(n) && Headed(n);
    ConfirmedAcks(m.ackqueue, m.nack, m.datahandle, m.past.gone, m.past.sends, m.past.near, handle);
  }

  lemma ConfirmedAcks(q: seq<Ack<seq<byte>>>, nack: int, h: word, gone: seq<Gone>, sends: nat, near: bool, handle: word)
    requires AckState(q, nack, h, gone, sends, near)
    ensures AckState(Del(q, handle), if Find(q, handle) < |q| then nack - 1 else nack, h, gone, sends, near)
  {
    if near { DelCurrent(q, sends, handle); }
  }

  /** The switches of the line are no part of it. */
  lemma LineKeeps(m: Minor, n: Minor)
    requires Inv(m) && SameIn(m, n) && SameOut(m, n)
    ensures Inv(n)
  {
  }

  lemma LineEventKeeps(m: Minor, e: Event)
    requires Inv(m) && (e.Open? || e.Close? || e.Throttle? || e.Unthrottle? || e.Stop? || e.Start? || e.Detach?)
    ensures Inv(Step(m, e))
  {
    if e.Open? {
      LineKeeps(m, m.(tty := true));
      RecvKeeps(m.(tty := true), e.rx);
    } else if e.Unthrottle? {
      LineKeeps(m, m.(ttyinstop := false));
      RecvKeeps(m.(ttyinstop := false), e.rx);
    } else if e.Start? {
      LineKeeps(m, m.(ttyoutstop := false));
      SendKeeps(m.(ttyoutstop := false), e.tx);
    } else {
      LineKeeps(m, Step(m, e));
    }
  }

  /** Every event keeps all of it, whatever the environment answers. */
  lemma StepKeeps(m: Minor, e: Event)
    requires Inv(m) && Enabled(e)
    ensures Inv(Step(m, e))
  {
    match e
    case Write(_, _, _, _, _) => WriteKeeps(m, e);
    case PutChar(_, _, _, _) => PutCharKeeps(m, e);
    case FlushChars(_, _) => FlushCharsKeeps(m, e);
    case Indication(skb, rx) =>
      ArriveKeeps(m, skb);
      RecvKeeps(Arrive(m, skb), rx);
    case Confirmation(handle) => ConfirmationKeeps(m, handle);
    case Kick(tx) => SendKeeps(m, tx);
    case _ => LineEventKeeps(m, e);
  }

  lemma {:induction false} RunKeeps(m: Minor, es: seq<Event>)
    requires Inv(m) && forall i :: 0 <= i < |es| ==> Enabled(es[i])
    ensures Inv(Run(m, es))
    decreases |es|
  {
    if es != [] {
      StepKeeps(m, es[0]);
      RunKeeps(Step(m, es[0]), es[1..]);
    }
  }

  lemma FreshInv(applId: word, ncci: dword)
    ensures Inv(Fresh(applId, ncci))
  {
  }

  /** In particular in every run of a new minor. */
  lemma EveryRun(applId: word, ncci: dword, es: seq<Event>)
    requires forall i :: 0 <= i < |es| ==> Enabled(es[i])
    ensures Inv(Run(Fresh(applId, ncci), es))
  {
    FreshInv(applId, ncci);
    RunKeeps(Fresh(applId, ncci), es);
  }

  // ----- what that means -----

  /** outbytes is exact exactly as long as no block of 65536 bytes or more has left the queue. */
  lemma CountExact(m: Minor)
    requires Inv(m)
    ensures m.outbytes == Bytes(m.outqueue) <==> forall i :: 0 <= i < |m.past.gone| ==> |m.past.gone[i].payload| < WORDS
  {
    DriftFree(m.past.gone);
  }

  lemma {:induction false} DriftFree(g: seq<Gone>)
    ensures Drift(g) == 0 <==> forall i :: 0 <= i < |g| ==> |g[i].payload| < WORDS
  {
    if g != [] {
      DriftFree(g[..|g| - 1]);
    }
  }

  /** A written block of 65536 bytes or more makes it wrong: the block is taken, the queue is empty, and
      outbytes is not zero. */
  lemma LongBlock(applId: word, ncci: dword, buf: seq<byte>)
    requires |buf| >= WORDS
    ensures var m := Step(Fresh(applId, ncci), Write(buf, true, true, [Taken(0)], []));
      m.outqueue == [] && m.past.gone == [Gone(buf, true)] && m.outbytes == |buf| / WORDS * WORDS && m.outbytes > 0
  {
    var f := Fresh(applId, ncci);
    var q := Queue(Accept(f, buf), buf);
    assert q.outqueue == [buf];
    SendAllStep(q, [Taken(0)], SendOne(q, Taken(0)).0, true);
    var n := SendOne(q, Taken(0)).0;
    assert n.outqueue == [] && n.past.gone == [Gone(buf, true)];
    assert SendAll(n, []) == n;
  }

  /** While the oldest unconfirmed block is near, a confirmation removes the entry of the very block that
      was sent under its handle, and no other.  near holds in every run in which, at each send, fewer than
      65536 blocks have been sent since the oldest one that is unconfirmed. */
  lemma ConfirmsOwn(m: Minor, k: nat)
    requires Inv(m) && m.past.near && Near(m.ackqueue, m.past.sends) && k < |m.ackqueue|
    ensures var n := DelAck(m, Handle(m.ackqueue[k].no));
      n.ackqueue == m.ackqueue[..k] + m.ackqueue[k + 1..] && n.nack == m.nack - 1
    ensures m.ackqueue[k].what == TakenOf(m.past.gone)[m.ackqueue[k].no]
  {
    FindsOwn(m.ackqueue, m.past.sends, k);
  }

  /** A put that fails leaves handle counter and acknowledgement queue as they were exactly when no older
      block is waiting under the same handle. */
  lemma FailedPutRestores(m: Minor, address: dword)
    requires m.outqueue != [] && Current(m.ackqueue, m.past.sends) && m.datahandle == Handle(m.past.sends)
    ensures var n := SendOne(m, QueueFull(address)).0;
      n.datahandle == m.datahandle && n.outqueue == m.outqueue && n.outbytes == m.outbytes && n.nack == m.nack
      && (n.ackqueue == m.ackqueue <==> Find(m.ackqueue, m.datahandle) == |m.ackqueue|)
  {
    TakenBack(m.ackqueue, m.past.sends, m.outqueue[0]);
    FindAppend(m.ackqueue, Ack(m.datahandle, m.past.sends, m.outqueue[0]));
    assert [m.outqueue[0]] + m.outqueue[1..] == m.outqueue;
  }

  // ----- a handle that comes round -----

  /** k times a block that the stack takes at once. */
  function Writes(b: seq<byte>, k: nat): (es: seq<Event>)
    ensures forall i :: 0 <= i < |es| ==> es[i].Write?
  {
    if k == 0 then [] else Writes(b, k - 1) + [Write(b, true, true, [Taken(0)], [])]
  }

  /** A minor without a tty that has sent k blocks and waits for the confirmation of each. */
  predicate Waiting(m: Minor, b: seq<byte>, k: nat) {
    && m.nccip && !m.tty && m.outqueue == [] && m.inqueue == [] && m.ttyskb == None
    && m.past.sends == k && m.datahandle == Handle(k)
    && |m.ackqueue| == k && (k > 0 ==> m.ackqueue[0] == Ack(0, 0, b))
  }

  lemma WriteTaken(m: Minor, b: seq<byte>, k: nat)
    requires Waiting(m, b, k)
    ensures Waiting(Step(m, Write(b, true, true, [Taken(0)], [])), b, k + 1)
  {
    var q := Queue(Accept(m, b), b);
    assert q.outqueue == [b];
    var n := SendOne(q, Taken(0)).0;
    SendAllStep(q, [Taken(0)], n, true);
    assert SendAll(n, []) == n;
  }

  lemma WriteFull(m: Minor, b: seq<byte>, k: nat, late: seq<byte>)
    requires Waiting(m, b, k)
    ensures var n := Step(m, Write(late, true, true, [QueueFull(0)], []));
      n.outqueue == [late] && n.ackqueue == Del(m.ackqueue + [Ack(m.datahandle, k, late)], m.datahandle)
  {
    var q := Queue(Accept(m, late), late);
    assert q.outqueue == [late];
    SendAllStep(q, [QueueFull(0)], SendOne(q, QueueFull(0)).0, false);
  }

  lemma {:induction false} RunExtend(m: Minor, es: seq<Event>, e: Event)
    requires AllInd(m.inqueue) && Enabled(e) && forall i :: 0 <= i < |es| ==> Enabled(es[i])
    ensures Run(m, es + [e]) == Step(Run(m, es), e)
    decreases |es|
  {
    var fs := es + [e];
    if es == [] {
      assert fs[1..] == [];
    } else {
      assert fs[1..] == es[1..] + [e];
      RunExtend(Step(m, es[0]), es[1..], e);
    }
  }

  lemma {:induction false} WritesTaken(m: Minor, b: seq<byte>, k: nat)
    requires Waiting(m, b, 0)
    ensures Waiting(Run(m, Writes(b, k)), b, k)
  {
    if k > 0 {
      WritesTaken(m, b, k - 1);
      RunExtend(m, Writes(b, k - 1), Write(b, true, true, [Taken(0)], []));
      WriteTaken(Run(m, Writes(b, k - 1)), b, k - 1);
    }
  }

  /** A run of a new minor: 65536 blocks, or a multiple of that, are taken and none is confirmed, and one more
      finds the queue full.  The entry of the first block is lost, and one stays for the block that was not
      sent. */
  lemma HandleWraps(applId: word, ncci: dword, b: seq<byte>, k: nat, late: seq<byte>)
    requires k > 0 && k % WORDS == 0
    ensures var q := Run(Fresh(applId, ncci), Writes(b, k)).ackqueue;
      var n := Run(Fresh(applId, ncci), Writes(b, k) + [Write(late, true, true, [QueueFull(0)], [])]);
      |q| == k && q[0] == Ack(0, 0, b) && n.ackqueue == q[1..] + [Ack(0, k, late)] && n.outqueue == [late]
  {
    var f := Fresh(applId, ncci);
    var m := Run(f, Writes(b, k));
    WritesTaken(f, b, k);
    RunExtend(f, Writes(b, k), Write(late, true, true, [QueueFull(0)], []));
    WriteFull(m, b, k, late);
    OldestLost(m.ackqueue, Ack(0, k, late));
  }

  // ----- when nothing moves -----

  /** Nothing is sent while the tty has stopped output, and nothing is delivered while it is throttled or
      there is none, until an event that says otherwise. */
  lemma StoppedSendsNothing(m: Minor, e: Event)
    requires Enabled(e) && AllInd(m.inqueue) && m.tty && m.ttyoutstop && !e.Start?
    ensures Step(m, e).past.gone == m.past.gone
  {
    match e
    case Open(rx) => RecvAllFrame(m.(tty := true), rx);
    case Write(_, _, _, _, rx) =>
      RecvAllFrame(Queue(Accept(Flush(m), e.buf), e.buf), rx);
    case FlushChars(_, rx) => RecvAllFrame(Flush(m), rx);
    case Unthrottle(rx) => RecvAllFrame(m.(ttyinstop := false), rx);
    case Indication(skb, rx) => RecvAllFrame(Arrive(m, skb), rx);
    case _ =>
  }

  lemma WriteDelivers(m: Minor, e: Event)
    requires e.Write? && AllInd(m.inqueue) && (!m.tty || m.ttyinstop)
    ensures TtyWrite(m, e).past.delivered == m.past.delivered
  {
    SendAllFrame(Queue(Accept(Flush(m), e.buf), e.buf), e.tx);
  }

  lemma FlushDelivers(m: Minor, e: Event)
    requires e.FlushChars? && AllInd(m.inqueue) && (!m.tty || m.ttyinstop)
    ensures TtyFlushChars(m, e).past.delivered == m.past.delivered
  {
    SendAllFrame(Flush(m), e.tx);
  }

  lemma ThrottledDeliversNothing(m: Minor, e: Event)
    requires Enabled(e) && AllInd(m.inqueue)
    requires (!m.tty && !e.Open?) || (m.ttyinstop && !e.Unthrottle?)
    ensures Step(m, e).past.delivered == m.past.delivered
  {
    if e.Write? { WriteDelivers(m, e); }
    else if e.PutChar? { SendAllFrame(Flush(m), e.tx); }
    else if e.FlushChars? { FlushDelivers(m, e); }
    else if e.Start? { SendAllFrame(m.(ttyoutstop := false), e.tx); }
    else if e.Kick? { SendAllFrame(m, e.tx); }
  }
}
