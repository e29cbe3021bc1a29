/** struct capiminor of capi.c: the queues, counters and loops behind MinorPath. */
module TtyMinor {
  import opened Wire
  import opened AckQueue
  import opened Messages
  import opened Programs
  import opened MinorPath
  import MinorOutcomes

  // ----- hand-built messages -----

  /** A field stored where the message ends so far makes it longer by the field. */
  lemma Grows(m: seq<byte>, off: nat, d: seq<byte>)
    requires off + |d| <= |m|
    ensures Splice(m, off, d)[..off + |d|] == m[..off] + d && Splice(m, off, d)[off + |d|..] == m[off + |d|..]
  {
  }

  method PutHeader(s: array<byte>, len: word, applId: word, subcommand: byte, msgid: word)
    requires HEADER <= s.Length
    modifies s
    ensures s[..HEADER] == HeaderBytes(len, Header(applId, DATA_B3, subcommand, msgid))
    ensures s[HEADER..] == old(s[HEADER..])
  {
    CapiMsgSetU16(s, 0, len);
    CapiMsgSetU16(s, 2, applId);
    CapiMsgSetU8(s, 4, DATA_B3);
    CapiMsgSetU8(s, 5, subcommand);
    CapiMsgSetU16(s, 6, msgid);
  }

  method PutU16(s: array<byte>, off: nat, v: word)
    requires off + 2 <= s.Length
    modifies s
    ensures s[..off + 2] == old(s[..off]) + Bytes16(v) && s[off + 2..] == old(s[off + 2..])
  {
    ghost var was := s[..];
    CapiMsgSetU16(s, off, v);
    Grows(was, off, Bytes16(v));
    assert s[..off + 2] == s[..][..off + 2] && s[off + 2..] == s[..][off + 2..];
  }

  method PutU32(s: array<byte>, off: nat, v: dword)
    requires off + 4 <= s.Length
    modifies s
    ensures s[..off + 4] == old(s[..off]) + Bytes32(v) && s[off + 4..] == old(s[off + 4..])
  {
    ghost var was := s[..];
    CapiMsgSetU32(s, off, v);
    Grows(was, off, Bytes32(v));
    assert s[..off + 4] == s[..][..off + 4] && s[off + 4..] == s[..][off + 4..];
  }

  /** The header that handle_minor_send pushes in front of a block.  It is what capi_cmsg2message makes of
      capi_fill_DATA_B3_REQ; data stands for the low half of the block's address. */
  method PushDataB3Req(s: array<byte>, applId: word, msgid: word, ncci: dword, data: dword, len: word, handle: word)
    requires 22 <= s.Length
    modifies s
    ensures s[..22] == DataB3ReqMessage(applId, msgid, FillDataB3Req(ncci, data, len, handle, 0))
    ensures s[22..] == old(s[22..])
  {
    ghost var t := s[8..];
    PutHeader(s, 22, applId, REQ, msgid);
    ghost var h := s[..8];
    PutU32(s, 8, ncci);
    assert s[12..] == t[4..];
    PutU32(s, 12, data);
    assert s[16..] == t[8..];
    PutU16(s, 16, len);
    assert s[18..] == t[10..];
    PutU16(s, 18, handle);
    assert s[20..] == t[12..];
    PutU16(s, 20, 0);
    assert s[22..] == t[14..];
    DataB3ReqBytes(applId, msgid, ncci, data, len, handle, 0);
    assert s[..22] == h + (Bytes32(ncci) + (Bytes32(data) + (Bytes16(len) + (Bytes16(handle) + Bytes16(0)))));
  }

  /** gen_data_b3_resp_for: what capi_cmsg2message makes of capi_fill_DATA_B3_RESP for the handle of the
      indication. */
  method GenDataB3RespFor(applId: word, msgid: word, ncci: dword, skb: seq<byte>) returns (s: array<byte>)
    requires IsInd(skb)
    ensures fresh(s) && s[..] == ResponseTo(applId, msgid, ncci, skb)
  {
    s := new byte[14](_ => 0);
    var datahandle := U16(skb, 18);
    PutHeader(s, 14, applId, RESP, msgid);
    PutU32(s, 8, ncci);
    PutU16(s, 12, datahandle);
    DataB3RespBytes(applId, msgid, FillDataB3Resp(ncci, datahandle));
    assert s[..14] == s[..];
  }

  // ----- the object -----

  function Handles(q: seq<Ack<seq<byte>>>): (r: seq<word>)
    ensures |r| == |q| && forall i :: 0 <= i < |q| ==> r[i] == q[i].handle
  {
    seq(|q|, i requires 0 <= i < |q| => q[i].handle)
  }

  class CapiMinor {
    const applId: word
    const ncci: dword
    var nccip: bool
    var msgid: word
    var datahandle: word
    var ackqueue: seq<word>
    var nack: int
    var inqueue: seq<seq<byte>>
    var inbytes: int
    var outqueue: seq<seq<byte>>
    var outbytes: int
    var ttyskb: Option<seq<byte>>
    var tty: bool
    var ttyinstop: bool
    var ttyoutstop: bool
    /** The acknowledgement queue with the blocks its handles stand for, and what has happened so far. */
    ghost var acks: seq<Ack<seq<byte>>>
    ghost var past: History

    ghost predicate Valid()
      reads this
    {
      ackqueue == Handles(acks)
    }

    ghost function State(): Minor
      reads this
    {
      Minor(applId, ncci, nccip, msgid, datahandle, acks, nack, inqueue, inbytes, outqueue, outbytes,
            ttyskb, tty, ttyinstop, ttyoutstop, past)
    }

    /** capiminor_alloc clears the object; capincci_alloc then attaches it. */
    constructor (applId: word, ncci: dword)
      ensures Valid() && Inv(State()) && State() == Fresh(applId, ncci)
    {
      this.applId, this.ncci := applId, ncci;
      nccip, msgid, datahandle := true, 0, 0;
      ackqueue, nack, inqueue, inbytes, outqueue, outbytes := [], 0, [], 0, [], 0;
      ttyskb, tty, ttyinstop, ttyoutstop := None, false, false, false;
      acks, past := [], NEW_HISTORY;
    }

    /** capincci_add_ack: append to the list; it fails without memory. */
    method AddAck(handle: word, memory: bool, ghost ack: Ack<seq<byte>>) returns (ok: bool)
      requires Valid() && ack.handle == handle
      modifies this`ackqueue, this`nack, this`acks
      ensures Valid() && ok == memory
      ensures acks == if ok then old(acks) + [ack] else old(acks)
      ensures nack == if ok then old(nack) + 1 else old(nack)
    {
      if !memory { return false; }
      ackqueue := ackqueue + [handle];
      acks := acks + [ack];
      nack := nack + 1;
      return true;
    }

    /** capiminor_del_ack: the first entry with this handle goes. */
    method DelAck(handle: word) returns (ok: bool)
      requires Valid()
      modifies this`ackqueue, this`nack, this`acks
      ensures Valid() && (ok <==> Find(old(acks), handle) < |old(acks)|)
      ensures acks == Del(old(acks), handle) && nack == if ok then old(nack) - 1 else old(nack)
    {
      var pp := 0;
      while pp < |ackqueue|
        invariant pp <= |ackqueue| && Valid() && acks == old(acks) && nack == old(nack)
        invariant Find(acks, handle) == pp + Find(acks[pp..], handle)
      {
        if ackqueue[pp] == handle {
          ackqueue := ackqueue[..pp] + ackqueue[pp + 1..];
          acks := acks[..pp] + acks[pp + 1..];
          nack := nack - 1;
          return true;
        }
        assert acks[pp..][1..] == acks[pp + 1..];
        pp := pp + 1;
      }
      return false;
    }

    /** The message for the next block; its data are not copied. */
    method BuildReq(len: word, data: dword) returns (msg: array<byte>)
      ensures fresh(msg)
      ensures msg[..] == DataB3ReqMessage(applId, msgid, FillDataB3Req(ncci, data, len, datahandle, 0))
    {
      msg := new byte[22](_ => 0);
      PushDataB3Req(msg, applId, msgid, ncci, data, len, datahandle);
      assert msg[..22] == msg[..];
    }

    method Dequeue()
      requires Valid() && outqueue != []
      modifies this`msgid, this`outqueue
      ensures Valid() && State() == Dequeued(old(State()))
    {
      msgid := Next(msgid);
      outqueue := outqueue[1..];
    }

    method Requeue(skb: seq<byte>)
      requires Valid()
      modifies this`outqueue
      ensures Valid() && State() == Requeued(old(State()), skb)
    {
      outqueue := [skb] + outqueue;
    }

    /** Note the handle of the block about to be sent. */
    method Note(memory: bool, ghost skb: seq<byte>) returns (ok: bool)
      requires Valid()
      modifies this`ackqueue, this`acks, this`nack, this`past
      ensures Valid() && ok == memory && State() == if ok then Noted(old(State()), skb) else old(State())
    {
      ghost var near := past.near && Near(acks, past.sends);
      ok := AddAck(datahandle, memory, Ack(datahandle, past.sends, skb));
      if ok { past := past.(near := near); }
    }

    /** put_capi_message has taken the block behind this header. */
    method Sent(skb: seq<byte>, ghost head: seq<byte>)
      requires Valid()
      modifies this`datahandle, this`outbytes, this`past
      ensures Valid() && State() == HandedOn(old(State()), skb, head)
    {
      datahandle := Next(datahandle);
      outbytes := outbytes - |skb| % WORDS;
      past := past.(gone := past.gone + [Gone(skb, true)], sends := past.sends + 1,
                    requests := past.requests + [head]);
    }

    /** put_capi_message has failed for good: drop the block. */
    method Drop(skb: seq<byte>)
      requires Valid()
      modifies this`outbytes, this`past
      ensures Valid() && State() == Dropped(old(State()), skb)
    {
      outbytes := outbytes - |skb| % WORDS;
      past := past.(gone := past.gone + [Gone(skb, false)]);
    }

    method Forget(handle: word)
      requires Valid()
      modifies this`ackqueue, this`nack, this`acks
      ensures Valid() && State() == MinorPath.DelAck(old(State()), handle)
    {
      var _ := DelAck(handle);
    }

    /** One round of the loop in handle_minor_send: build the message, note the handle, hand it on. */
    method SendRound(a: TxAnswer) returns (go: bool)
      requires Valid() && outqueue != []
      modifies this
      ensures Valid() && (State(), go) == SendOne(old(State()), a)
    {
      var skb := outqueue[0];
      var msg := BuildReq(|skb| % WORDS, a.address);
      Dequeue();
      var ok := Note(!a.NoAckMemory?, skb);
      if !ok {
        Requeue(skb);
        return false;
      }
      if a.Taken? {
        Sent(skb, msg[..]);
        return true;
      }
      Forget(datahandle);
      if a.QueueFull? {
        Requeue(skb);
        return false;
      }
      Drop(skb);
      return true;
    }

    method HandleMinorSend(tx: seq<TxAnswer>)
      requires Valid()
      modifies this
      ensures Valid() && State() == MinorPath.HandleMinorSend(old(State()), tx)
      ensures MinorOutcomes.Offers(old(State()), State(), old(outqueue), tx)
    {
      MinorOutcomes.HandleSends(State(), tx);
      if tty && ttyoutstop { return; }
      var answers := tx;
      ghost var goal := SendAll(State(), tx);
      while outqueue != []
        invariant Valid() && SendAll(State(), answers) == goal
        decreases |outqueue|
      {
        ghost var before := State();
        var go := SendRound(FirstTx(answers));
        SendAllStep(before, answers, State(), go);
        if !go { break; }
        answers := Rest(answers);
      }
    }

    /** handle_recv_skb: deliver one block, if the tty takes it and its response is accepted. */
    method HandleRecvSkb(skb: seq<byte>, a: RxAnswer) returns (ok: bool)
      requires Valid() && IsInd(skb)
      modifies this`msgid, this`past
      ensures Valid() && (State(), ok) == Offered(old(State()), skb, a)
      ensures ok <==> tty && !ttyinstop && a == Accepted
    {
      if !tty { return false; }
      if a == NoLdisc { return false; }
      if ttyinstop { return false; }
      if a == NoRoom { return false; }
      if a == NoMemory { return false; }
      var nskb := GenDataB3RespFor(applId, msgid, ncci, skb);
      msgid := Next(msgid);
      if a == PutFails { return false; }
      past := past.(delivered := past.delivered + [skb], responses := past.responses + [nskb[..]],
                    heard := past.heard + skb[U16(skb, 0)..]);
      return true;
    }

    /** One round of the loop in handle_minor_recv. */
    method RecvRound(a: RxAnswer) returns (go: bool)
      requires Valid() && inqueue != [] && IsInd(inqueue[0])
      modifies this`msgid, this`past, this`inqueue, this`inbytes
      ensures Valid() && (State(), go) == RecvOne(old(State()), a)
    {
      var skb := inqueue[0];
      TakeIn(skb);
      go := HandleRecvSkb(skb, a);
      if !go { PutBackIn(skb); }
    }

    method TakeIn(skb: seq<byte>)
      requires Valid() && inqueue != [] && skb == inqueue[0]
      modifies this`inqueue, this`inbytes
      ensures Valid() && State() == TakenIn(old(State()))
    {
      inqueue := inqueue[1..];
      inbytes := inbytes - |skb|;
    }

    method PutBackIn(skb: seq<byte>)
      requires Valid()
      modifies this`inqueue, this`inbytes
      ensures Valid() && State() == ReturnedIn(old(State()), skb)
    {
      inqueue := [skb] + inqueue;
      inbytes := inbytes + |skb|;
    }

    method HandleMinorRecv(rx: seq<RxAnswer>)
      requires Valid() && AllInd(inqueue)
      modifies this`msgid, this`past, this`inqueue, this`inbytes
      ensures Valid() && State() == MinorPath.HandleMinorRecv(old(State()), rx)
    {
      var answers := rx;
      while inqueue != []
        invariant Valid() && AllInd(inqueue)
        invariant MinorPath.HandleMinorRecv(State(), answers) == MinorPath.HandleMinorRecv(old(State()), rx)
        decreases |inqueue|
      {
        var go := RecvRound(FirstRx(answers));
        if !go { break; }
        answers := Rest(answers);
      }
    }

    /** Queue what put_char has collected. */
    method FlushSkb()
      requires Valid()
      modifies this`ttyskb, this`outqueue, this`outbytes
      ensures Valid() && State() == Flush(old(State()))
    {
      if ttyskb.Some? {
        var skb := ttyskb.value;
        ttyskb := None;
        outqueue := outqueue + [skb];
        outbytes := outbytes + |skb|;
      }
    }

    method AcceptBlock(buf: seq<byte>)
      requires Valid()
      modifies this`past, this`outqueue, this`outbytes
      ensures Valid() && State() == Queue(Accept(old(State()), buf), buf)
    {
      past := past.(accepted := past.accepted + buf);
      outqueue := outqueue + [buf];
      outbytes := outbytes + |buf|;
    }

    method TtyWrite(e: Event) returns (written: int)
      requires Valid() && AllInd(inqueue) && e.Write?
      modifies this
      ensures Valid() && State() == MinorPath.TtyWrite(old(State()), e)
      ensures written == if !old(nccip) then 0 else if !e.alloc then -12 else if !e.copied then -14 else |e.buf|
    {
      if !nccip { return 0; }
      FlushSkb();
      if !e.alloc { return -12; }
      if !e.copied { return -14; }
      AcceptBlock(e.buf);
      HandleMinorSend(e.tx);
      HandleMinorRecv(e.rx);
      return |e.buf|;
    }

    method TtyPutChar(e: Event)
      requires Valid() && e.PutChar?
      modifies this
      ensures Valid() && State() == MinorPath.TtyPutChar(old(State()), e)
    {
      if !nccip { return; }
      if ttyskb.Some? {
        if e.tailroom {
          ttyskb := Some(ttyskb.value + [e.ch]);
          past := past.(accepted := past.accepted + [e.ch]);
          return;
        }
        FlushSkb();
        HandleMinorSend(e.tx);
      }
      if e.alloc {
        ttyskb := Some([e.ch]);
        past := past.(accepted := past.accepted + [e.ch]);
      }
    }

    method TtyFlushChars(e: Event)
      requires Valid() && AllInd(inqueue) && e.FlushChars?
      modifies this
      ensures Valid() && State() == MinorPath.TtyFlushChars(old(State()), e)
    {
      if !nccip { return; }
      if ttyskb.Some? {
        FlushSkb();
        HandleMinorSend(e.tx);
      }
      HandleMinorRecv(e.rx);
    }

    method Receive(skb: seq<byte>)
      requires Valid() && AllInd(inqueue) && IsInd(skb)
      modifies this`inqueue, this`inbytes, this`past
      ensures Valid() && State() == Arrive(old(State()), skb)
    {
      inqueue := inqueue + [skb];
      inbytes := inbytes + |skb|;
      past := past.(received := past.received + [skb]);
    }

    method Indicated(skb: seq<byte>, rx: seq<RxAnswer>)
      requires Valid() && AllInd(inqueue) && IsInd(skb)
      modifies this`msgid, this`past, this`inqueue, this`inbytes
      ensures Valid() && State() == MinorPath.HandleMinorRecv(Arrive(old(State()), skb), rx)
    {
      Receive(skb);
      HandleMinorRecv(rx);
    }

    /** The other tty operations, and what capi_recv_message does with a data message for this minor. */
    method Handle(e: Event)
      requires Valid() && Inv(State()) && Enabled(e)
      modifies this
      ensures Valid() && Inv(State()) && State() == Step(old(State()), e)
      ensures MinorOutcomes.Outcome(old(State()), State(), e)
    {
      StepKeeps(State(), e);
      MinorOutcomes.StepOutcome(State(), e);
      match e {
        case Write(_, _, _, _, _) => var _ := TtyWrite(e);
        case PutChar(_, _, _, _) => TtyPutChar(e);
        case FlushChars(_, _) => TtyFlushChars(e);
        case Kick(tx) => HandleMinorSend(tx);
        case Confirmation(handle) => Forget(handle);
        case Indication(skb, rx) => Indicated(skb, rx);
        case _ => HandleLine(e);
      }
    }

    method Restart(tx: seq<TxAnswer>)
      requires Valid()
      modifies this
      ensures Valid() && State() == MinorPath.HandleMinorSend(old(State()).(ttyoutstop := false), tx)
    {
      ttyoutstop := false;
      HandleMinorSend(tx);
    }

    method HandleLine(e: Event)
      requires Valid() && AllInd(inqueue)
      requires e.Open? || e.Close? || e.Throttle? || e.Unthrottle? || e.Stop? || e.Start? || e.Detach?
      modifies this
      ensures Valid() && State() == Step(old(State()), e)
    {
      if e.Open? {
        if !nccip { return; }
        tty := true;
        HandleMinorRecv(e.rx);
      } else if e.Close? {
        tty := false;
      } else if e.Throttle? {
        ttyinstop := true;
      } else if e.Unthrottle? {
        ttyinstop := false;
        HandleMinorRecv(e.rx);
      } else if e.Stop? {
        ttyoutstop := true;
      } else if e.Start? {
        Restart(e.tx);
      } else {
        nccip := false;
      }
    }
  }
}
