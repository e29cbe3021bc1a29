/** The data window of capilib.c as seen from outside: which message ids are queued, which were lost, and
    when the pointer queue behaves as the bounded queue it is meant to be. */
module DataWindow {
  import opened Wire

  /** Where msgidlast points: nowhere, at the end of the queue, or at an entry the queue cannot reach. */
  datatype Tail = NoTail | AtEnd | InLost

  /** queue: the ids reachable from msgidqueue, in order.  lost: the ids in nodes that can be reached
      neither from msgidqueue nor from msgidfree. */
  datatype Window = Window(cap: nat, queue: seq<word>, lost: seq<word>, tail: Tail) {
    predicate Valid() {
      && |queue| + |lost| <= cap
      && (tail == AtEnd ==> queue != []) && (tail == InLost ==> lost != [])
    }
  }

  function Fresh(winsize: nat, maxWindow: nat): Window {
    Window(Capacity(winsize, maxWindow), [], [], NoTail)
  }

  /** mq_init puts node 0 on the free list whatever the window size is. */
  function Capacity(winsize: nat, maxWindow: nat): nat {
    var w := if winsize > maxWindow then maxWindow else winsize;
    if w == 0 then 1 else w
  }

  function Find(s: seq<word>, id: word): (i: nat)
    ensures i <= |s| && (i < |s| ==> s[i] == id) && id !in s[..i]
    ensures i < |s| <==> id in s
  {
    if s == [] || s[0] == id then 0
    else assert s == [s[0]] + s[1..]; 1 + Find(s[1..], id)
  }

  function Without(s: seq<word>, i: nat): (r: seq<word>)
    requires i < |s|
    ensures |r| == |s| - 1
  {
    s[..i] + s[i + 1..]
  }

  datatype Op = Req(id: word) | Conf(id: word)

  /** mq_enqueue: one more id, if a node is free.  Nothing leads to the new node when the tail pointer was
      dropped before, or follows lost nodes, and the queue is not empty. */
  function Enqueue(w: Window, id: word): (Window, bool) {
    if |w.queue| + |w.lost| == w.cap then (w, false)
    else if w.queue == [] then (w.(queue := [id], tail := AtEnd), true)
    else if w.tail == AtEnd then (w.(queue := w.queue + [id]), true)
    else (w.(lost := w.lost + [id], tail := InLost), true)
  }

  /** mq_dequeue: remove the first entry with this id; removing the entry msgidlast points at drops the
      tail pointer. */
  function Dequeue(w: Window, id: word): (Window, bool) {
    var i := Find(w.queue, id);
    if i == |w.queue| then (w, false) else (DequeueAt(w, i), true)
  }

  function DequeueAt(w: Window, i: nat): Window
    requires i < |w.queue|
  {
    w.(queue := Without(w.queue, i), tail := if w.tail == AtEnd && i == |w.queue| - 1 then NoTail else w.tail)
  }

  function Step(w: Window, op: Op): (Window, bool) {
    match op
    case Req(id) => Enqueue(w, id)
    case Conf(id) => Dequeue(w, id)
  }

  function Run(w: Window, ops: seq<Op>): Window
    decreases |ops|
  {
    if ops == [] then w else Run(Step(w, ops[0]).0, ops[1..])
  }

  // ----- what the window is for -----

  /** A bounded queue of unconfirmed ids. */
  function RefStep(cap: nat, out: seq<word>, op: Op): (seq<word>, bool) {
    match op
    case Req(id) => if |out| == cap then (out, false) else (out + [id], true)
    case Conf(id) => if id in out then (Without(out, Find(out, id)), true) else (out, false)
  }

  /** From here on the window gives the results of the bounded queue, operation by operation, and holds
      its ids. */
  predicate Refines(w: Window, out: seq<word>, ops: seq<Op>)
    decreases |ops|
  {
    && w.queue == out
    && (ops != [] ==>
          && Step(w, ops[0]).1 == RefStep(w.cap, out, ops[0]).1
          && Refines(Step(w, ops[0]).0, RefStep(w.cap, out, ops[0]).0, ops[1..]))
  }

  /** A condition on the operations alone: gone tells whether the last entry was confirmed while others
      were waiting.  No id may be accepted from then on until the queue has run empty. */
  predicate Safe(cap: nat, out: seq<word>, gone: bool, ops: seq<Op>)
    decreases |ops|
  {
    ops == [] ||
    var next := RefStep(cap, out, ops[0]).0;
    match ops[0]
    case Req(_) =>
      if |out| == cap then Safe(cap, out, gone, ops[1..])
      else (out == [] || !gone) && Safe(cap, next, false, ops[1..])
    case Conf(id) =>
      Safe(cap, next, gone || (id in out && Find(out, id) == |out| - 1), ops[1..])
  }

  /** Every confirmation is for the oldest unconfirmed id. */
  predicate InOrder(cap: nat, out: seq<word>, ops: seq<Op>)
    decreases |ops|
  {
    ops != [] ==>
      && (ops[0].Conf? ==> out != [] && ops[0].id == out[0])
      && InOrder(cap, RefStep(cap, out, ops[0]).0, ops[1..])
  }

  // ----- every run -----

  /** One operation keeps the window valid, never gives back a lost node, and changes the number of nodes
      in use by one exactly when it succeeds. */
  lemma StepValid(w: Window, op: Op)
    requires w.Valid()
    ensures var (v, ok) := Step(w, op);
      && v.Valid() && v.cap == w.cap && w.lost <= v.lost
      && |v.queue| + |v.lost| == |w.queue| + |w.lost| + (if !ok then 0 else if op.Req? then 1 else -1)
      && (op.Req? ==> (ok <==> |w.queue| + |w.lost| < w.cap))
      && (op.Conf? ==> (ok <==> op.id in w.queue) && v.lost == w.lost)
  {
  }

  lemma {:induction false} RunValid(w: Window, ops: seq<Op>)
    requires w.Valid()
    ensures Run(w, ops).Valid() && Run(w, ops).cap == w.cap && w.lost <= Run(w, ops).lost
    decreases |ops|
  {
    if ops != [] {
      StepValid(w, ops[0]);
      RunValid(Step(w, ops[0]).0, ops[1..]);
    }
  }

  /** A lost node is gone for good: from then on, whatever happens, the window holds fewer ids. */
  lemma LostForGood(w: Window, ops: seq<Op>)
    requires w.Valid()
    ensures |Run(w, ops).queue| + |w.lost| <= w.cap
  {
    RunValid(w, ops);
  }

  /** Starting without losses, the window is the bounded queue exactly as long as no id is accepted behind
      a confirmed tail. */
  lemma {:induction false} RefinesIffSafe(w: Window, gone: bool, ops: seq<Op>)
    requires w.Valid() && w.lost == [] && (w.queue != [] ==> (gone <==> w.tail == NoTail))
    ensures Refines(w, w.queue, ops) <==> Safe(w.cap, w.queue, gone, ops)
    ensures Safe(w.cap, w.queue, gone, ops) ==> Run(w, ops).lost == []
    decreases |ops|
  {
    if ops != [] {
      var v := Step(w, ops[0]).0;
      match ops[0]
      case Req(id) =>
        if |w.queue| == w.cap {
          RefinesIffSafe(w, gone, ops[1..]);
        } else if w.queue == [] || !gone {
          RefinesIffSafe(v, false, ops[1..]);
        }
      case Conf(id) =>
        RefinesIffSafe(v, gone || (id in w.queue && Find(w.queue, id) == |w.queue| - 1), ops[1..]);
    }
  }

  /** In particular from a fresh window on. */
  lemma FreshRefines(winsize: nat, maxWindow: nat, ops: seq<Op>)
    ensures var w := Fresh(winsize, maxWindow);
      Refines(w, [], ops) <==> Safe(w.cap, [], false, ops)
  {
    RefinesIffSafe(Fresh(winsize, maxWindow), false, ops);
  }

  /** Confirmations in the order of the requests are always safe. */
  lemma {:induction false} InOrderSafe(cap: nat, out: seq<word>, gone: bool, ops: seq<Op>)
    requires InOrder(cap, out, ops) && (out == [] || !gone)
    ensures Safe(cap, out, gone, ops)
    decreases |ops|
  {
    if ops != [] {
      match ops[0]
      case Req(id) =>
        if |out| == cap { InOrderSafe(cap, out, gone, ops[1..]); }
        else { InOrderSafe(cap, out + [id], false, ops[1..]); }
      case Conf(id) =>
        assert Find(out, id) == 0;
        InOrderSafe(cap, Without(out, 0), gone || |out| == 1, ops[1..]);
    }
  }

  /** The smallest run that leaves the bounded queue: the second of two ids is confirmed, and the next id
      is accepted but can never be confirmed. */
  lemma TailConfirmed(a: word, b: word, c: word)
    requires a != b && a != c
    ensures var w := Run(Fresh(3, 8), [Req(a), Req(b), Conf(b), Req(c)]);
      w.queue == [a] && w.lost == [c] && !Step(w, Conf(c)).1
  {
    var w0 := Fresh(3, 8);
    var w1 := Step(w0, Req(a)).0;
    var w2 := Step(w1, Req(b)).0;
    var w3 := Step(w2, Conf(b)).0;
    var w4 := Step(w3, Req(c)).0;
    var t3, t2, t1 := [Req(c)], [Conf(b), Req(c)], [Req(b), Conf(b), Req(c)];
    assert t3[1..] == [] && t2[1..] == t3 && t1[1..] == t2 && [Req(a), Req(b), Conf(b), Req(c)][1..] == t1;
    assert w2.queue == [a, b];
    assert w3.queue == [a] && w4.queue == [a] && w4.lost == [c];
    assert Run(w3, t3) == w4;
    assert Run(w2, t2) == w4;
    assert Run(w1, t1) == w4;
  }
}
