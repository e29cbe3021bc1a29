/** Queues of unconfirmed data blocks whose 16-bit handles are assigned in sequence, as capi.c and
    capidrv.c keep them: a block is appended when it is handed on, and the first entry with the handle of
    a confirmation is removed. */
module AckQueue {
  import opened Wire

  /** handle is what the driver stores; no says how many blocks had been sent before this one; what is
      anything else kept about the block. */
  datatype Ack<T> = Ack(handle: word, no: nat, what: T)

  function Handle(no: nat): word { no % WORDS }

  /** The index of the first entry with this handle. */
  function Find<T>(q: seq<Ack<T>>, handle: word): (i: nat)
    ensures i <= |q| && (i < |q| ==> q[i].handle == handle)
    ensures forall k :: 0 <= k < i ==> q[k].handle != handle
  {
    if q == [] || q[0].handle == handle then 0 else 1 + Find(q[1..], handle)
  }

  function Del<T>(q: seq<Ack<T>>, handle: word): (r: seq<Ack<T>>) {
    var i := Find(q, handle);
    if i < |q| then q[..i] + q[i + 1..] else q
  }

  /** Entries are in the order of sending and carry the handles of their numbers. */
  predicate Current<T>(q: seq<Ack<T>>, sends: nat) {
    && (forall i :: 0 <= i < |q| ==> q[i].handle == Handle(q[i].no) && q[i].no < sends)
    && forall i, j :: 0 <= i < j < |q| ==> q[i].no < q[j].no
  }

  /** The oldest unconfirmed block is fewer than 65536 sends old. */
  predicate Near<T>(q: seq<Ack<T>>, sends: nat) {
    q != [] ==> sends - q[0].no < WORDS
  }

  lemma SameHandle(a: nat, b: nat)
    requires a < b < a + WORDS
    ensures Handle(a) != Handle(b)
  {
    assert a == WORDS * (a / WORDS) + Handle(a) && b == WORDS * (b / WORDS) + Handle(b);
  }

  /** While the oldest block is near, a confirmation finds the very block it is for. */
  lemma FindsOwn<T>(q: seq<Ack<T>>, sends: nat, k: nat)
    requires Current(q, sends) && Near(q, sends) && k < |q|
    ensures Find(q, Handle(q[k].no)) == k
  {
    var i := Find(q, Handle(q[k].no));
    if i < k {
      SameHandle(q[i].no, q[k].no);
    }
  }

  /** The handle about to be assigned is unused while the oldest block is near. */
  lemma NextUnused<T>(q: seq<Ack<T>>, sends: nat)
    requires Current(q, sends) && Near(q, sends)
    ensures Find(q, Handle(sends)) == |q|
  {
    var i := Find(q, Handle(sends));
    if i < |q| {
      SameHandle(q[i].no, sends);
    }
  }

  lemma DelCurrent<T>(q: seq<Ack<T>>, sends: nat, handle: word)
    requires Current(q, sends)
    ensures Current(Del(q, handle), sends) && (Near(q, sends) ==> Near(Del(q, handle), sends))
    ensures |Del(q, handle)| == |q| - if Find(q, handle) < |q| then 1 else 0
  {
    var f, r := Find(q, handle), Del(q, handle);
    forall i | 0 <= i < |r| ensures r[i] == q[if i < f then i else i + 1] {
    }
  }

  lemma AddCurrent<T>(q: seq<Ack<T>>, sends: nat, what: T)
    requires Current(q, sends)
    ensures Current(q + [Ack(Handle(sends), sends, what)], sends + 1)
  {
  }

  lemma FindAppend<T>(q: seq<Ack<T>>, a: Ack<T>)
    ensures Find(q + [a], a.handle) == Find(q, a.handle)
  {
    if q != [] && q[0].handle != a.handle {
      assert (q + [a])[1..] == q[1..] + [a];
      FindAppend(q[1..], a);
    }
  }

  /** Taking back the entry of a failed send restores the queue exactly when no older block has the same
      handle; otherwise the older block's entry is lost instead. */
  lemma TakenBack<T>(q: seq<Ack<T>>, sends: nat, what: T)
    requires Current(q, sends)
    ensures var h := Handle(sends);
      Del(q + [Ack(h, sends, what)], h) == q <==> Find(q, h) == |q|
  {
    var a := Ack(Handle(sends), sends, what);
    FindAppend(q, a);
    var r := Del(q + [a], a.handle);
    if Find(q, a.handle) < |q| {
      assert r[|r| - 1] == a && q[|q| - 1] != a;
    }
  }

  /** In particular when the oldest block has it: its entry goes, and that of the block that was not sent
      stays. */
  lemma OldestLost<T>(q: seq<Ack<T>>, a: Ack<T>)
    requires q != [] && q[0].handle == a.handle
    ensures Del(q + [a], a.handle) == q[1..] + [a]
  {
    assert (q + [a])[0] == q[0] && (q + [a])[1..] == q[1..] + [a];
  }
}
