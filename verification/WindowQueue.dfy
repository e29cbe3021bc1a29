/** capilib.c: the message-id queue of an NCCI, threaded through a fixed pool of nodes. */
module WindowQueue {
  import opened Wire
  import opened DataWindow

  /** The null pointer, where a node index is expected. */
  const NONE := -1

  /** Following next from head visits exactly the nodes s. */
  ghost predicate Chain(next: seq<int>, head: int, s: seq<int>)
    decreases |s|
  {
    if s == [] then head == NONE
    else 0 <= head < |next| && head == s[0] && Chain(next, next[head], s[1..])
  }

  /** How often node n occurs in the three lists. */
  ghost function Uses(n: int, qs: seq<int>, ls: seq<int>, fs: seq<int>): nat {
    multiset(qs)[n] + multiset(ls)[n] + multiset(fs)[n]
  }

  /** qs, ls and fs together are the nodes 0 to cap - 1, each of them once. */
  ghost predicate Partition(cap: nat, qs: seq<int>, ls: seq<int>, fs: seq<int>) {
    && |qs| + |ls| + |fs| == cap
    && forall n: int :: Uses(n, qs, ls, fs) == if 0 <= n < cap then 1 else 0
  }

  ghost predicate Unique(s: seq<int>) {
    forall i, j :: 0 <= i < j < |s| ==> s[i] != s[j]
  }

  ghost predicate InPool(s: seq<int>, size: nat) {
    forall i :: 0 <= i < |s| ==> 0 <= s[i] < size
  }

  ghost function Ids(msgid: seq<word>, s: seq<int>): (r: seq<word>)
    requires InPool(s, |msgid|)
    ensures |r| == |s| && forall i :: 0 <= i < |s| ==> r[i] == msgid[s[i]]
  {
    seq(|s|, i requires 0 <= i < |s| => msgid[s[i]])
  }

  // ----- partitions -----

  /** In a partition the lists hold nodes of the pool only, and no list holds a node twice. */
  lemma PartitionMeans(cap: nat, qs: seq<int>, ls: seq<int>, fs: seq<int>)
    requires Partition(cap, qs, ls, fs)
    ensures InPool(qs, cap) && InPool(ls, cap) && InPool(fs, cap)
    ensures forall n :: n in qs ==> n !in ls && n !in fs
    ensures forall n :: n in ls ==> n !in fs
  {
    forall n: int ensures n in qs ==> n !in ls && n !in fs { assert Uses(n, qs, ls, fs) <= 1; }
    forall n: int ensures n in ls ==> n !in fs { assert Uses(n, qs, ls, fs) <= 1; }
    forall i | 0 <= i < |qs| ensures 0 <= qs[i] < cap { assert Uses(qs[i], qs, ls, fs) > 0; }
    forall i | 0 <= i < |ls| ensures 0 <= ls[i] < cap { assert Uses(ls[i], qs, ls, fs) > 0; }
    forall i | 0 <= i < |fs| ensures 0 <= fs[i] < cap { assert Uses(fs[i], qs, ls, fs) > 0; }
  }

  lemma Different(cap: nat, qs: seq<int>, ls: seq<int>, fs: seq<int>, i: nat, j: nat)
    requires Partition(cap, qs, ls, fs) && i < j < |qs|
    ensures qs[i] != qs[j]
  {
    assert Uses(qs[i], qs, ls, fs) <= 1;
    if qs[i] == qs[j] { Twice(qs, i, j); }
  }

  lemma AllDifferent(cap: nat, qs: seq<int>, ls: seq<int>, fs: seq<int>)
    requires Partition(cap, qs, ls, fs)
    ensures Unique(qs)
  {
    forall i, j | 0 <= i < j < |qs| ensures qs[i] != qs[j] { Different(cap, qs, ls, fs, i, j); }
  }

  /** The first free node is in neither of the other lists, and may join either. */
  lemma TakeFree(cap: nat, qs: seq<int>, ls: seq<int>, fs: seq<int>)
    requires Partition(cap, qs, ls, fs) && fs != []
    ensures fs[0] !in qs && fs[0] !in ls && fs[0] !in fs[1..]
    ensures Partition(cap, qs + [fs[0]], ls, fs[1..]) && Partition(cap, qs, ls + [fs[0]], fs[1..])
  {
    assert fs == [fs[0]] + fs[1..];
    assert Uses(fs[0], qs, ls, fs) <= 1;
    forall n: int ensures Uses(n, qs + [fs[0]], ls, fs[1..]) == Uses(n, qs, ls, fs) {
    }
    forall n: int ensures Uses(n, qs, ls + [fs[0]], fs[1..]) == Uses(n, qs, ls, fs) {
    }
  }

  lemma GiveFree(cap: nat, qs: seq<int>, ls: seq<int>, fs: seq<int>, i: nat)
    requires Partition(cap, qs, ls, fs) && i < |qs|
    ensures qs[i] !in fs && qs[i] !in ls && qs[i] !in qs[..i] && qs[i] !in qs[i + 1..]
    ensures Partition(cap, qs[..i] + qs[i + 1..], ls, [qs[i]] + fs)
  {
    assert qs == qs[..i] + [qs[i]] + qs[i + 1..];
    assert multiset(qs) == multiset(qs[..i]) + multiset{qs[i]} + multiset(qs[i + 1..]);
    assert Uses(qs[i], qs, ls, fs) <= 1;
    var r := qs[..i] + qs[i + 1..];
    forall n: int ensures Uses(n, r, ls, [qs[i]] + fs) == Uses(n, qs, ls, fs) {
      assert multiset(r)[n] == multiset(qs[..i])[n] + multiset(qs[i + 1..])[n];
    }
  }

  lemma AddNode(cap: nat, fs: seq<int>)
    requires Partition(cap, [], [], fs)
    ensures Partition(cap + 1, [], [], [cap] + fs) && cap !in fs
  {
    assert Uses(cap, [], [], fs) == 0;
    forall n: int ensures Uses(n, [], [], [cap] + fs) == if 0 <= n < cap + 1 then 1 else 0 {
      assert Uses(n, [], [], fs) == if 0 <= n < cap then 1 else 0;
    }
  }

  lemma Twice(s: seq<int>, i: nat, j: nat)
    requires i < j < |s| && s[i] == s[j]
    ensures multiset(s)[s[i]] >= 2
  {
    assert s == s[..i] + [s[i]] + s[i + 1..j] + [s[j]] + s[j + 1..];
  }

  lemma IdsKept(msgid: seq<word>, x: int, id: word, s: seq<int>)
    requires InPool(s, |msgid|) && 0 <= x < |msgid| && x !in s
    ensures Ids(msgid[x := id], s) == Ids(msgid, s)
    ensures Ids(msgid[x := id], s + [x]) == Ids(msgid, s) + [id]
  {
  }

  lemma IdsWithout(msgid: seq<word>, s: seq<int>, i: nat)
    requires InPool(s, |msgid|) && i < |s|
    ensures InPool(s[..i] + s[i + 1..], |msgid|)
    ensures Ids(msgid, s[..i] + s[i + 1..]) == Without(Ids(msgid, s), i)
  {
  }

  // ----- chains -----

  lemma {:induction false} ChainFrame(next: seq<int>, now: seq<int>, head: int, s: seq<int>)
    requires Chain(next, head, s) && |now| == |next|
    requires forall n :: n in s && 0 <= n < |next| ==> now[n] == next[n]
    ensures Chain(now, head, s)
    decreases |s|
  {
    if s != [] { ChainFrame(next, now, next[head], s[1..]); }
  }

  lemma ChainCons(next: seq<int>, head: int, s: seq<int>, x: int)
    requires Chain(next, head, s) && 0 <= x < |next| && x !in s
    ensures Chain(next[x := head], x, [x] + s)
  {
    ChainFrame(next, next[x := head], head, s);
    assert ([x] + s)[1..] == s;
  }

  lemma {:induction false} ChainAppend(next: seq<int>, head: int, s: seq<int>, x: int)
    requires s != [] && Chain(next, head, s) && 0 <= x < |next| && next[x] == NONE && x !in s
    requires Unique(s)
    ensures 0 <= s[|s| - 1] < |next| && Chain(next[s[|s| - 1] := x], head, s + [x])
    decreases |s|
  {
    var t := s[1..];
    assert (s + [x])[1..] == t + [x];
    if t == [] {
      assert Chain(next[head := x], x, [x]);
    } else {
      ChainAppend(next, next[head], t, x);
      assert s[0] != s[|s| - 1];
    }
  }

  lemma {:induction false} ChainRemove(next: seq<int>, head: int, s: seq<int>, i: nat)
    requires i < |s| && Chain(next, head, s) && Unique(s)
    ensures 0 <= s[i] < |next| && (i > 0 ==> 0 <= s[i - 1] < |next|)
    ensures var r := s[..i] + s[i + 1..];
      if i == 0 then Chain(next, next[s[0]], r) else Chain(next[s[i - 1] := next[s[i]]], head, r)
    decreases |s|
  {
    var r := s[..i] + s[i + 1..];
    if i == 0 {
      assert r == s[1..];
    } else {
      var t := s[1..];
      ChainRemove(next, next[head], t, i - 1);
      var q := t[..i - 1] + t[i..];
      assert r[1..] == q;
      if i == 1 {
        ChainFrame(next, next[s[0] := next[s[1]]], next[s[1]], q);
      } else {
        assert s[0] != s[i - 1];
      }
    }
  }

  lemma {:induction false} ChainAt(next: seq<int>, head: int, s: seq<int>, i: nat)
    requires i < |s| && Chain(next, head, s)
    ensures 0 <= s[i] < |next| && next[s[i]] == (if i + 1 < |s| then s[i + 1] else NONE)
    decreases |s|
  {
    if i == 0 {
    } else {
      ChainAt(next, next[head], s[1..], i - 1);
    }
  }

  /** Entry x becomes the successor of entry last, if there is one.  The queue then ends with x if it was
      empty or last was its end, and is unchanged otherwise. */
  lemma Attached(next: seq<int>, queue: int, qs: seq<int>, last: int, x: int)
    requires Chain(next, queue, qs) && Unique(qs)
    requires 0 <= x < |next| && next[x] == NONE && x !in qs && last != x
    requires last == NONE || 0 <= last < |next|
    ensures var now := if last == NONE then next else next[last := x];
      && (qs == [] ==> Chain(now, x, [x]))
      && (qs != [] && last == qs[|qs| - 1] ==> Chain(now, queue, qs + [x]))
      && (last !in qs ==> Chain(now, queue, qs))
  {
    var now := if last == NONE then next else next[last := x];
    if qs != [] && last == qs[|qs| - 1] { ChainAppend(next, queue, qs, x); }
    if last !in qs { ChainFrame(next, now, queue, qs); }
  }

  lemma FirstFree(next: seq<int>)
    requires next != [] && next[0] == NONE
    ensures Partition(1, [], [], [0]) && Chain(next, 0, [0]) && InPool([0], |next|)
  {
    assert Partition(0, [], [], []);
    AddNode(0, []);
    assert [0][1..] == [] && [0] + [] == [0];
  }

  /** One more node on the free list. */
  lemma AddFree(cap: nat, next: seq<int>, free: int, fs: seq<int>)
    requires Partition(cap, [], [], fs) && Chain(next, free, fs) && InPool(fs, |next|) && cap < |next|
    ensures var now, gs := next[cap := free], [cap] + fs;
      Partition(cap + 1, [], [], gs) && Chain(now, cap, gs) && InPool(gs, |next|)
  {
    AddNode(cap, fs);
    ChainCons(next, free, fs, cap);
  }

  // ----- the pool as a value -----

  /** The fields of an NCCI, with the nodes reachable from the queue head (qs), those reachable from the
      free list (fs) and all others that were initialised (ls). */
  datatype Pool = Pool(next: seq<int>, msgid: seq<word>, queue: int, last: int, free: int, nmsg: int,
                       cap: nat, qs: seq<int>, ls: seq<int>, fs: seq<int>) {
    ghost predicate Shaped() {
      && |next| == |msgid| && cap <= |next|
      && InPool(qs, |next|) && InPool(ls, |next|) && InPool(fs, |next|)
      && (last == NONE || last in ls || (qs != [] && last == qs[|qs| - 1]))
      && nmsg == |qs| + |ls|
    }

    ghost predicate Valid() {
      Shaped() && Partition(cap, qs, ls, fs) && Chain(next, queue, qs) && Chain(next, free, fs)
    }

    ghost function View(): Window
      requires Shaped()
    {
      Window(cap, Ids(msgid, qs), Ids(msgid, ls), if last == NONE then NoTail else if last in ls then InLost else AtEnd)
    }

    /** The first free node is filled, put behind last, and becomes last. */
    ghost function Enqueued(id: word): Pool
      requires Valid() && fs != []
    {
      var x := fs[0];
      var now := if last == NONE then next[x := NONE] else next[x := NONE][last := x];
      var linked := qs == [] || last == qs[|qs| - 1];
      Pool(now, msgid[x := id], if queue == NONE then x else queue, x, next[x], nmsg + 1,
           cap, if linked then qs + [x] else qs, if linked then ls else ls + [x], fs[1..])
    }

    /** The i-th node of the queue is taken out and put in front of the free list. */
    ghost function Dequeued(i: nat): Pool
      requires Valid() && i < |qs|
    {
      var x := qs[i];
      var cut := if i == 0 then next else next[qs[i - 1] := next[x]];
      Pool(cut[x := free], msgid, if i == 0 then next[x] else queue, if x == last then NONE else last, x, nmsg - 1,
           cap, qs[..i] + qs[i + 1..], ls, [x] + fs)
    }
  }

  lemma FreshView(p: Pool)
    requires p.last == NONE && p.qs == [] && p.ls == [] && p.Shaped()
    ensures p.View() == Window(p.cap, [], [], NoTail)
  {
  }

  lemma EnqueuedChains(p: Pool, id: word)
    requires p.Valid() && p.fs != []
    ensures var q := p.Enqueued(id); Chain(q.next, q.queue, q.qs) && Chain(q.next, q.free, q.fs)
  {
    var x := p.fs[0];
    PartitionMeans(p.cap, p.qs, p.ls, p.fs);
    AllDifferent(p.cap, p.qs, p.ls, p.fs);
    TakeFree(p.cap, p.qs, p.ls, p.fs);
    var taken := p.next[x := NONE];
    ChainFrame(p.next, taken, p.queue, p.qs);
    Attached(taken, p.queue, p.qs, p.last, x);
    assert p.qs != [] ==> p.qs[|p.qs| - 1] in p.qs;
    assert p.last != NONE ==> p.last !in p.fs;
    forall n | n in p.fs[1..] ensures n in p.fs && n != x { }
    ChainFrame(p.next, p.Enqueued(id).next, p.next[x], p.fs[1..]);
  }

  /** The entry is the first of the queue. */
  lemma EnqueuedFirst(p: Pool, id: word)
    requires p.Valid() && p.fs != [] && p.qs == []
    ensures p.Enqueued(id).Shaped() && (p.Enqueued(id).View(), true) == Enqueue(p.View(), id)
  {
    var x := p.fs[0];
    PartitionMeans(p.cap, p.qs, p.ls, p.fs);
    TakeFree(p.cap, p.qs, p.ls, p.fs);
    IdsKept(p.msgid, x, id, p.ls);
    assert p.Enqueued(id).qs == [x] && Ids(p.msgid[x := id], [x]) == [id];
  }

  /** The entry goes to the end of the queue. */
  lemma EnqueuedLinked(p: Pool, id: word)
    requires p.Valid() && p.fs != [] && p.qs != [] && p.last == p.qs[|p.qs| - 1]
    ensures p.Enqueued(id).Shaped() && (p.Enqueued(id).View(), true) == Enqueue(p.View(), id)
  {
    var x := p.fs[0];
    PartitionMeans(p.cap, p.qs, p.ls, p.fs);
    TakeFree(p.cap, p.qs, p.ls, p.fs);
    IdsKept(p.msgid, x, id, p.qs);
    IdsKept(p.msgid, x, id, p.ls);
    assert p.last in p.qs;
  }

  /** The entry follows a lost one, or none at all. */
  lemma EnqueuedLost(p: Pool, id: word)
    requires p.Valid() && p.fs != [] && p.qs != [] && p.last != p.qs[|p.qs| - 1]
    ensures p.Enqueued(id).Shaped() && (p.Enqueued(id).View(), true) == Enqueue(p.View(), id)
  {
    var x := p.fs[0];
    PartitionMeans(p.cap, p.qs, p.ls, p.fs);
    TakeFree(p.cap, p.qs, p.ls, p.fs);
    IdsKept(p.msgid, x, id, p.qs);
    IdsKept(p.msgid, x, id, p.ls);
    assert p.Enqueued(id).ls == p.ls + [x] && x in p.ls + [x];
  }

  lemma EnqueuedView(p: Pool, id: word)
    requires p.Valid() && p.fs != []
    ensures p.Enqueued(id).Shaped() && (p.Enqueued(id).View(), true) == Enqueue(p.View(), id)
  {
    if p.qs == [] { EnqueuedFirst(p, id); }
    else if p.last == p.qs[|p.qs| - 1] { EnqueuedLinked(p, id); }
    else { EnqueuedLost(p, id); }
  }

  /** Every request keeps the pool in order and does to the window what it should. */
  lemma EnqueuedValid(p: Pool, id: word)
    requires p.Valid()
    ensures p.fs == [] ==> Enqueue(p.View(), id) == (p.View(), false)
    ensures p.fs != [] ==> p.Enqueued(id).Valid() && (p.Enqueued(id).View(), true) == Enqueue(p.View(), id)
  {
    if p.fs != [] {
      TakeFree(p.cap, p.qs, p.ls, p.fs);
      EnqueuedChains(p, id);
      EnqueuedView(p, id);
    }
  }

  lemma DequeuedChains(p: Pool, i: nat)
    requires p.Valid() && i < |p.qs|
    ensures var q := p.Dequeued(i); Chain(q.next, q.queue, q.qs) && Chain(q.next, q.free, q.fs)
  {
    var x, rest := p.qs[i], p.qs[..i] + p.qs[i + 1..];
    PartitionMeans(p.cap, p.qs, p.ls, p.fs);
    AllDifferent(p.cap, p.qs, p.ls, p.fs);
    ChainRemove(p.next, p.queue, p.qs, i);
    GiveFree(p.cap, p.qs, p.ls, p.fs, i);
    var cut := if i == 0 then p.next else p.next[p.qs[i - 1] := p.next[x]];
    ChainFrame(p.next, cut[x := p.free], p.free, p.fs);
    ChainFrame(cut, cut[x := p.free], if i == 0 then p.next[x] else p.queue, rest);
    assert ([x] + p.fs)[1..] == p.fs;
  }

  lemma DequeuedView(p: Pool, i: nat)
    requires p.Valid() && i < |p.qs|
    ensures p.Dequeued(i).Shaped() && p.Dequeued(i).View() == DequeueAt(p.View(), i)
  {
    IdsWithout(p.msgid, p.qs, i);
    DequeuedLast(p, i);
  }

  /** Removing the entry last points at is removing the end of the queue. */
  lemma DequeuedLast(p: Pool, i: nat)
    requires p.Valid() && i < |p.qs|
    ensures p.qs[i] != NONE && p.qs[i] !in p.ls && p.qs[|p.qs| - 1] !in p.ls
    ensures p.last == p.qs[i] ==> i == |p.qs| - 1
    ensures i < |p.qs| - 1 ==> var r := p.qs[..i] + p.qs[i + 1..]; r != [] && r[|r| - 1] == p.qs[|p.qs| - 1]
  {
    PartitionMeans(p.cap, p.qs, p.ls, p.fs);
    assert p.qs[i] in p.qs && p.qs[|p.qs| - 1] in p.qs;
    if i < |p.qs| - 1 { Different(p.cap, p.qs, p.ls, p.fs, i, |p.qs| - 1); }
  }

  lemma DequeuedAt(p: Pool, i: nat)
    requires p.Valid() && i < |p.qs|
    ensures p.Dequeued(i).Valid() && p.Dequeued(i).View() == DequeueAt(p.View(), i)
  {
    GiveFree(p.cap, p.qs, p.ls, p.fs, i);
    DequeuedChains(p, i);
    DequeuedView(p, i);
  }

  /** Every confirmation of a queued id keeps the pool in order and does to the window what it should. */
  lemma DequeuedValid(p: Pool, id: word)
    requires p.Valid()
    ensures var i := DataWindow.Find(p.View().queue, id);
      if i == |p.qs| then Dequeue(p.View(), id) == (p.View(), false)
      else p.Dequeued(i).Valid() && (p.Dequeued(i).View(), true) == Dequeue(p.View(), id)
  {
    var i := DataWindow.Find(p.View().queue, id);
    if i < |p.qs| { DequeuedAt(p, i); }
  }

  lemma {:induction false} FindIs(s: seq<word>, id: word, i: nat)
    requires i <= |s| && id !in s[..i] && (i < |s| ==> s[i] == id)
    ensures DataWindow.Find(s, id) == i
  {
    if i > 0 {
      assert s[0] == s[..i][0] && s[1..][..i - 1] == s[..i][1..];
      FindIs(s[1..], id, i - 1);
    }
  }

  class Ncci {
    const applid: word
    const ncci: dword
    const winsize: nat
    const next: array<int>
    const msgid: array<word>
    var queue: int
    var last: int
    var free: int
    var nmsg: int
    ghost var cap: nat
    ghost var qs: seq<int>
    ghost var ls: seq<int>
    ghost var fs: seq<int>

    ghost function State(): Pool
      reads this, next, msgid
    {
      Pool(next[..], msgid[..], queue, last, free, nmsg, cap, qs, ls, fs)
    }

    /** capilib_new_ncci and mq_init.  maxWindow stands for CAPI_MAXDATAWINDOW. */
    constructor (applid: word, ncci: dword, winsize: nat, maxWindow: nat)
      requires maxWindow >= 1
      ensures this.applid == applid && this.ncci == ncci
      ensures fresh(next) && fresh(msgid) && State().Valid() && State().View() == Fresh(winsize, maxWindow)
    {
      this.applid := applid;
      this.ncci := ncci;
      this.winsize := if winsize > maxWindow then maxWindow else winsize;
      next := new int[maxWindow](_ => NONE);
      msgid := new word[maxWindow](_ => 0);
      new;
      MqInit(this.winsize);
      FreshView(State());
    }

    method MqInit(winsize: nat)
      requires next.Length == msgid.Length && winsize <= next.Length && 1 <= next.Length
      modifies this`queue, this`last, this`free, this`nmsg, this`cap, this`qs, this`ls, this`fs, next
      ensures cap == (if winsize == 0 then 1 else winsize)
      ensures queue == last == NONE && nmsg == 0 && qs == [] && ls == []
      ensures Partition(cap, [], [], fs) && Chain(next[..], free, fs) && InPool(fs, next.Length)
    {
      queue, last, nmsg, free := NONE, NONE, 0, 0;
      cap, qs, ls, fs := 1, [], [], [0];
      next[0] := NONE;
      FirstFree(next[..]);
      var i := 1;
      while i < winsize
        invariant 1 <= i == cap && (i <= winsize || i == 1)
        invariant queue == last == NONE && nmsg == 0 && qs == [] && ls == []
        invariant Partition(cap, [], [], fs) && Chain(next[..], free, fs) && InPool(fs, next.Length)
      {
        AddFree(cap, next[..], free, fs);
        next[i] := free;
        free := i;
        cap, fs := i + 1, [i] + fs;
        i := i + 1;
      }
    }

    method MqEnqueue(id: word) returns (ok: bool)
      requires State().Valid()
      modifies this`last, this`free, this`nmsg, this`queue, this`qs, this`ls, this`fs, next, msgid
      ensures State().Valid() && (State().View(), ok) == Enqueue(old(State().View()), id)
    {
      EnqueuedValid(State(), id);
      if free == NONE { return false; }
      ghost var goal := State().Enqueued(id);
      AppendFree(id);
      qs, ls, fs := goal.qs, goal.ls, goal.fs;
      assert State() == goal;
      return true;
    }

    /** Fill the first free node and make it the last one. */
    method AppendFree(id: word)
      requires next.Length == msgid.Length && 0 <= free < next.Length && (last == NONE || 0 <= last < next.Length)
      modifies this`last, this`free, this`nmsg, this`queue, next, msgid
      ensures var x, n := old(free), old(next[..])[old(free) := NONE];
        && next[..] == (if old(last) == NONE then n else n[old(last) := x]) && msgid[..] == old(msgid[..])[x := id]
        && free == old(next[free]) && last == x && nmsg == old(nmsg) + 1
        && queue == if old(queue) == NONE then x else old(queue)
    {
      var mq := free;
      free := next[mq];
      msgid[mq] := id;
      next[mq] := NONE;
      if last != NONE { next[last] := mq; }
      last := mq;
      if queue == NONE { queue := mq; }
      nmsg := nmsg + 1;
    }

    /** Where the first entry with this id is, and the entry before it. */
    method FindEntry(id: word) returns (ghost i: nat, pp: int, mq: int)
      requires State().Valid()
      ensures i == DataWindow.Find(State().View().queue, id)
      ensures pp == (if i == 0 then NONE else qs[i - 1]) && mq == if i < |qs| then qs[i] else NONE
    {
      ghost var ids := State().View().queue;
      pp, mq, i := NONE, queue, 0;
      while mq != NONE && msgid[mq] != id
        invariant 0 <= i <= |qs| && pp == (if i == 0 then NONE else qs[i - 1])
        invariant mq == if i < |qs| then qs[i] else NONE
        invariant id !in ids[..i]
        decreases |qs| - i
      {
        ChainAt(next[..], queue, qs, i);
        assert ids[i] == msgid[mq];
        pp, mq := mq, next[mq];
        i := i + 1;
      }
      FindIs(ids, id, i);
    }

    method MqDequeue(id: word) returns (ok: bool)
      requires State().Valid()
      modifies this`last, this`free, this`nmsg, this`queue, this`qs, this`fs, next
      ensures State().Valid() && (State().View(), ok) == Dequeue(old(State().View()), id)
    {
      DequeuedValid(State(), id);
      var i, pp, mq := FindEntry(id);
      if mq == NONE { return false; }
      Remove(i, pp, mq);
      return true;
    }

    method Remove(ghost i: nat, pp: int, mq: int)
      requires State().Valid() && i < |qs| && mq == qs[i] && pp == if i == 0 then NONE else qs[i - 1]
      modifies this`last, this`free, this`nmsg, this`queue, this`qs, this`fs, next
      ensures State() == old(State()).Dequeued(i)
    {
      ghost var goal := State().Dequeued(i);
      Unlink(pp, mq);
      qs, fs := goal.qs, goal.fs;
    }

    /** Take node mq, which follows pp, out of the queue and put it in front of the free list. */
    method Unlink(pp: int, mq: int)
      requires 0 <= mq < next.Length && (pp == NONE || 0 <= pp < next.Length)
      modifies this`last, this`free, this`nmsg, this`queue, next
      ensures next[..] == (if pp == NONE then old(next[..]) else old(next[..])[pp := old(next[mq])])[mq := old(free)]
      ensures queue == (if pp == NONE then old(next[mq]) else old(queue)) && free == mq && nmsg == old(nmsg) - 1
      ensures last == if old(last) == mq then NONE else old(last)
    {
      if pp == NONE { queue := next[mq]; } else { next[pp] := next[mq]; }
      if mq == last { last := NONE; }
      next[mq] := free;
      free := mq;
      nmsg := nmsg - 1;
    }
  }

  // ----- the list of NCCIs -----

  /** The first NCCI of the list with these numbers. */
  ghost function Lookup(head: seq<Ncci>, applid: word, ncci: dword): (k: nat)
    ensures k <= |head|
    ensures k < |head| ==> head[k].applid == applid && head[k].ncci == ncci
    ensures forall n <- head[..k] :: n.applid != applid || n.ncci != ncci
  {
    if head == [] || (head[0].applid == applid && head[0].ncci == ncci) then 0
    else assert head == [head[0]] + head[1..]; 1 + Lookup(head[1..], applid, ncci)
  }

  /** The entries of a list are valid and share nothing. */
  ghost predicate Separate(head: seq<Ncci>)
    reads head, set n <- head :: n.next, set n <- head :: n.msgid
  {
    && (forall n <- head :: n.State().Valid())
    && forall i, j :: 0 <= i < j < |head| ==>
         head[i] != head[j] && head[i].next != head[j].next && head[i].msgid != head[j].msgid
  }

  method FindNcci(head: seq<Ncci>, applid: word, ncci: dword) returns (k: nat)
    ensures k == Lookup(head, applid, ncci)
  {
    k := 0;
    while k < |head|
      invariant k <= |head| && Lookup(head, applid, ncci) == k + Lookup(head[k..], applid, ncci)
    {
      if head[k].applid == applid && head[k].ncci == ncci { break; }
      assert head[k..][1..] == head[k + 1..];
      k := k + 1;
    }
  }

  /** Queue the id with the k-th NCCI; the others are not touched. */
  method EnqueueAt(head: seq<Ncci>, k: nat, msgid: word) returns (accepted: bool)
    requires Separate(head) && k < |head|
    modifies head[k], head[k].next, head[k].msgid
    ensures Separate(head)
    ensures (head[k].State().View(), accepted) == Enqueue(old(head[k].State().View()), msgid)
    ensures forall i :: 0 <= i < |head| && i != k ==> head[i].State() == old(head[i].State())
  {
    accepted := head[k].MqEnqueue(msgid);
    forall i | 0 <= i < |head| && i != k ensures head[i].State() == old(head[i].State()) { }
    forall n | n in head ensures n.State().Valid() {
      var i :| 0 <= i < |head| && head[i] == n;
    }
  }

  /** capilib_data_b3_req: an unknown NCCI accepts everything, a known one refuses when its window is full. */
  method DataB3Req(head: seq<Ncci>, applid: word, ncci: dword, msgid: word) returns (accepted: bool)
    requires Separate(head)
    modifies head, set n <- head :: n.next, set n <- head :: n.msgid
    ensures Separate(head)
    ensures var k := Lookup(head, applid, ncci);
      if k == |head| then accepted && forall n <- head :: n.State() == old(n.State())
      else
        && (head[k].State().View(), accepted) == Enqueue(old(head[k].State().View()), msgid)
        && forall i :: 0 <= i < |head| && i != k ==> head[i].State() == old(head[i].State())
  {
    var k := FindNcci(head, applid, ncci);
    if k == |head| { return true; }
    accepted := EnqueueAt(head, k, msgid);
  }

  /** capilib_data_b3_conf: a confirmation that fits nothing is ignored. */
  method DataB3Conf(head: seq<Ncci>, applid: word, ncci: dword, msgid: word)
    requires Separate(head)
    modifies head, set n <- head :: n.next
    ensures Separate(head)
    ensures var k := Lookup(head, applid, ncci);
      if k == |head| then forall n <- head :: n.State() == old(n.State())
      else
        && head[k].State().View() == Dequeue(old(head[k].State().View()), msgid).0
        && forall i :: 0 <= i < |head| && i != k ==> head[i].State() == old(head[i].State())
  {
    var k := FindNcci(head, applid, ncci);
    if k < |head| { var _ := head[k].MqDequeue(msgid); }
  }
}
