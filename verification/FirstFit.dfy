/** The number allocators that keep a sorted list: application ids (core.c) and tty minors (capi.c) are the
    least unused numbers of it. */
module FirstFit {
  import opened Wire

  predicate Below(ids: seq<nat>, i: nat, j: nat)
    requires i < |ids| && j < |ids|
  {
    ids[i] < ids[j]
  }

  predicate Increasing(ids: seq<nat>) {
    forall i, j {:trigger Below(ids, i, j)} :: 0 <= i < j < |ids| ==> Below(ids, i, j)
  }

  /** All numbers are first or more. */
  predicate From(ids: seq<nat>, first: nat) {
    forall i :: 0 <= i < |ids| ==> first <= ids[i]
  }

  /** Where the walk along the list stops: at the first entry that leaves a gap below it. */
  function Stop(ids: seq<nat>, first: nat): (k: nat)
    ensures k <= |ids|
  {
    if ids == [] || ids[0] > first then 0 else 1 + Stop(ids[1..], first + 1)
  }

  function Insert(ids: seq<nat>, k: nat, id: nat): seq<nat>
    requires k <= |ids|
  {
    ids[..k] + [id] + ids[k..]
  }

  /** Up to the gap the list is first, first + 1, and so on. */
  lemma {:induction false} Dense(ids: seq<nat>, first: nat)
    requires Increasing(ids) && From(ids, first)
    ensures var k := Stop(ids, first);
      (forall i :: 0 <= i < k ==> ids[i] == first + i) && (k < |ids| ==> ids[k] > first + k)
  {
    if ids != [] && ids[0] == first {
      var t := ids[1..];
      assert From(t, first + 1) by {
        forall i | 0 <= i < |t| ensures first + 1 <= t[i] { assert Below(ids, 0, i + 1); }
      }
      TailIncreasing(ids);
      Dense(t, first + 1);
      var k := Stop(ids, first);
      forall i | 0 <= i < k ensures ids[i] == first + i { if i > 0 { assert ids[i] == t[i - 1]; } }
    }
  }

  /** The number found is the least unused one, and entered where the walk stopped it keeps the list sorted
      and without repetition. */
  lemma LeastUnused(ids: seq<nat>, first: nat)
    requires Increasing(ids) && From(ids, first)
    ensures var id := first + Stop(ids, first); id !in ids && forall n :: first <= n < id ==> n in ids
    ensures var k := Stop(ids, first); Increasing(Insert(ids, k, first + k)) && From(Insert(ids, k, first + k), first)
  {
    Dense(ids, first);
    var k := Stop(ids, first);
    forall n | first <= n < first + k ensures n in ids { assert ids[n - first] == n; }
    Beyond(ids, k, first + k);
    InsertIncreasing(ids, k, first + k);
    InsertFrom(ids, first, k);
  }

  lemma InsertFrom(ids: seq<nat>, first: nat, k: nat)
    requires From(ids, first) && k <= |ids|
    ensures From(Insert(ids, k, first + k), first)
  {
    var r := Insert(ids, k, first + k);
    forall i | 0 <= i < |r| ensures first <= r[i] {
      assert r[i] == if i < k then ids[i] else if i == k then first + k else ids[i - 1];
    }
  }

  lemma Beyond(ids: seq<nat>, k: nat, id: nat)
    requires Increasing(ids) && k <= |ids| && (k < |ids| ==> ids[k] > id)
    requires forall i :: 0 <= i < k ==> ids[i] < id
    ensures forall i :: k <= i < |ids| ==> id < ids[i]
    ensures id !in ids
  {
    forall i | k <= i < |ids| ensures id < ids[i] { if i > k { assert Below(ids, k, i); } }
  }

  lemma InsertIncreasing(ids: seq<nat>, k: nat, id: nat)
    requires Increasing(ids) && k <= |ids|
    requires forall i :: 0 <= i < k ==> ids[i] < id
    requires forall i :: k <= i < |ids| ==> id < ids[i]
    ensures Increasing(Insert(ids, k, id))
  {
    var r := Insert(ids, k, id);
    forall i, j | 0 <= i < j < |r| ensures Below(r, i, j) {
      assert r[i] == if i < k then ids[i] else if i == k then id else ids[i - 1];
      assert r[j] == if j < k then ids[j] else if j == k then id else ids[j - 1];
      if i != k && j != k { assert Below(ids, if i < k then i else i - 1, if j < k then j else j - 1); }
    }
  }

  /** Taking an entry out keeps the list sorted. */
  lemma RemoveIncreasing(ids: seq<nat>, first: nat, k: nat)
    requires Increasing(ids) && From(ids, first) && k < |ids|
    ensures Increasing(ids[..k] + ids[k + 1..]) && From(ids[..k] + ids[k + 1..], first)
    ensures ids[k] !in ids[..k] + ids[k + 1..]
  {
    var r := ids[..k] + ids[k + 1..];
    forall i | 0 <= i < |r| ensures first <= r[i] && r[i] != ids[k] {
      if i < k { assert Below(ids, i, k); } else { assert Below(ids, k, i + 1); }
    }
    forall i, j | 0 <= i < j < |r| ensures Below(r, i, j) {
      assert Below(ids, if i < k then i else i + 1, if j < k then j else j + 1);
    }
  }

  /** The list behind its first entry. */
  lemma TailIncreasing(ids: seq<nat>)
    requires Increasing(ids) && ids != []
    ensures Increasing(ids[1..])
  {
    var t := ids[1..];
    forall i, j | 0 <= i < j < |t| ensures Below(t, i, j) { assert Below(ids, i + 1, j + 1); }
  }

  /** Only a list with all numbers below a limit leaves no number below it. */
  lemma FullIff(ids: seq<nat>, first: nat, limit: nat)
    requires Increasing(ids) && From(ids, first) && first <= limit
    ensures first + Stop(ids, first) >= limit <==> forall n :: first <= n < limit ==> n in ids
  {
    LeastUnused(ids, first);
    if first + Stop(ids, first) < limit {
      assert first <= first + Stop(ids, first) < limit;
    }
  }

  // ----- operations -----

  datatype Event = Alloc | Free(id: nat)

  /** The list after an event: Alloc enters the least unused number below limit, if there is one; Free takes
      a number out. */
  function After(ids: seq<nat>, first: nat, limit: nat, e: Event): seq<nat> {
    match e
    case Alloc =>
      var k := Stop(ids, first);
      if first + k < limit then Insert(ids, k, first + k) else ids
    case Free(id) => Remove(ids, id)
  }

  function Remove(ids: seq<nat>, id: nat): seq<nat> {
    if ids == [] then [] else if ids[0] == id then ids[1..] else [ids[0]] + Remove(ids[1..], id)
  }

  lemma {:induction false} RemoveIs(ids: seq<nat>, k: nat)
    requires Increasing(ids) && k < |ids|
    ensures Remove(ids, ids[k]) == ids[..k] + ids[k + 1..]
  {
    if k > 0 {
      assert Below(ids, 0, k) && ids[1..][k - 1] == ids[k];
      TailIncreasing(ids);
      RemoveIs(ids[1..], k - 1);
      assert ids[1..][..k - 1] == ids[1..k] && ids[1..][k..] == ids[k + 1..];
      assert [ids[0]] + (ids[1..k] + ids[k + 1..]) == ids[..k] + ids[k + 1..];
    }
  }

  lemma {:induction false} RemoveAbsent(ids: seq<nat>, id: nat)
    requires id !in ids
    ensures Remove(ids, id) == ids
  {
    if ids != [] { RemoveAbsent(ids[1..], id); }
  }

  lemma AllocKeeps(ids: seq<nat>, first: nat)
    requires Increasing(ids) && From(ids, first)
    ensures var r := Insert(ids, Stop(ids, first), first + Stop(ids, first)); Increasing(r) && From(r, first)
  {
    LeastUnused(ids, first);
  }

  lemma TakenOut(ids: seq<nat>, k: nat)
    requires k < |ids|
    ensures forall n :: n in ids <==> n in ids[..k] + ids[k + 1..] || n == ids[k]
  {
    assert ids == ids[..k] + [ids[k]] + ids[k + 1..];
  }

  /** Allocation enters the number and leaves the others. */
  lemma Entered(ids: seq<nat>, k: nat, id: nat)
    requires k <= |ids|
    ensures forall n :: n in Insert(ids, k, id) <==> n in ids || n == id
  {
    assert ids == ids[..k] + ids[k..];
  }

  lemma FreeKeeps(ids: seq<nat>, first: nat, id: nat)
    requires Increasing(ids) && From(ids, first)
    ensures Increasing(Remove(ids, id)) && From(Remove(ids, id), first)
    ensures forall n :: n in Remove(ids, id) <==> n in ids && n != id
  {
    if k :| 0 <= k < |ids| && ids[k] == id {
      RemoveIs(ids, k);
      RemoveIncreasing(ids, first, k);
      TakenOut(ids, k);
    } else {
      RemoveAbsent(ids, id);
    }
  }

  lemma EventKeeps(ids: seq<nat>, first: nat, limit: nat, e: Event)
    requires Increasing(ids) && From(ids, first)
    ensures Increasing(After(ids, first, limit, e)) && From(After(ids, first, limit, e), first)
  {
    match e
    case Alloc => AllocKeeps(ids, first);
    case Free(id) => FreeKeeps(ids, first, id);
  }

  function Run(ids: seq<nat>, first: nat, limit: nat, es: seq<Event>): seq<nat>
    decreases |es|
  {
    if es == [] then ids else Run(After(ids, first, limit, es[0]), first, limit, es[1..])
  }

  /** Under every sequence of allocations and releases the list stays strictly increasing; so each allocation
      yields the least unused number, and fails exactly when all are used. */
  lemma {:induction false} EveryRun(ids: seq<nat>, first: nat, limit: nat, es: seq<Event>)
    requires Increasing(ids) && From(ids, first) && first <= limit
    ensures var r := Run(ids, first, limit, es);
      && Increasing(r) && From(r, first)
      && (first + Stop(r, first) >= limit <==> forall n :: first <= n < limit ==> n in r)
    decreases |es|
  {
    if es == [] {
      FullIff(ids, first, limit);
    } else {
      EventKeeps(ids, first, limit, es[0]);
      EveryRun(After(ids, first, limit, es[0]), first, limit, es[1..]);
    }
  }

  // ----- the lists -----

  /** list_del of the entry with this number. */
  method ListDel(ids: seq<nat>, id: nat) returns (r: seq<nat>)
    ensures r == Remove(ids, id)
  {
    var p := 0;
    while p < |ids| && ids[p] != id
      invariant p <= |ids| && Remove(ids, id) == ids[..p] + Remove(ids[p..], id)
    {
      assert ids[p..][1..] == ids[p + 1..];
      p := p + 1;
    }
    if p == |ids| {
      assert ids[..p] == ids;
      return ids;
    }
    return ids[..p] + ids[p + 1..];
  }

  /** capiminor_list: the minors in use.  capi_ttyminors is at least one (clamped when the module loads). */
  class MinorList {
    var minors: seq<nat>

    predicate Valid()
      reads this
    {
      Increasing(minors) && From(minors, 0)
    }

    constructor ()
      ensures Valid() && minors == []
    {
      minors := [];
    }

    /** capiminor_alloc: the least unused minor, unless all are used. */
    method CapiminorAlloc(ttyminors: nat) returns (ok: bool, minor: nat)
      requires Valid() && ttyminors >= 1
      modifies this
      ensures Valid() && minors == After(old(minors), 0, ttyminors, Alloc)
      ensures !ok <==> forall n :: 0 <= n < ttyminors ==> n in old(minors)
      ensures ok ==> minor < ttyminors && minor !in old(minors)
      ensures forall n :: n in minors <==> n in old(minors) || (ok && n == minor)
      ensures ok ==> forall n :: 0 <= n < minor ==> n in old(minors)
    {
      LeastUnused(minors, 0);
      FullIff(minors, 0, ttyminors);
      Entered(minors, Stop(minors, 0), Stop(minors, 0));
      ok, minor := Walk(ttyminors);
    }

    /** The walk over the list. */
    method Walk(ttyminors: nat) returns (ok: bool, minor: nat)
      requires ttyminors >= 1
      modifies this
      ensures minor == Stop(old(minors), 0) && (ok <==> minor < ttyminors)
      ensures minors == After(old(minors), 0, ttyminors, Alloc)
    {
      minor := 0;
      if minors == [] {
        minors := [0];
        return true, 0;
      }
      var p := 0;
      while p < |minors| && minors[p] <= minor
        invariant p == minor <= |minors| && minors == old(minors)
        invariant Stop(minors, 0) == p + Stop(minors[p..], minor)
      {
        assert minors[p..][1..] == minors[p + 1..];
        p, minor := p + 1, minor + 1;
      }
      if minor < ttyminors {
        minors := minors[..p] + [minor] + minors[p..];
      }
      ok := minor < ttyminors;
    }

    /** capiminor_free. */
    method CapiminorFree(minor: nat)
      requires Valid() && minor in minors
      modifies this
      ensures Valid() && minors == Remove(old(minors), minor)
      ensures forall n :: n in minors <==> n in old(minors) && n != minor
    {
      FreeKeeps(minors, 0, minor);
      minors := ListDel(minors, minor);
    }
  }

  /** capi_appls_list: the application ids in use. */
  class ApplList {
    const maxAppls: word
    var ids: seq<nat>

    predicate Valid()
      reads this
    {
      Increasing(ids) && From(ids, 1) && forall i :: 0 <= i < |ids| ==> ids[i] <= maxAppls
    }

    constructor (maxAppls: word)
      ensures Valid() && ids == [] && this.maxAppls == maxAppls
    {
      this.maxAppls := maxAppls;
      ids := [];
    }

    /** add_capi_appl: the least unused id, or 0 if all are used; but when all of 65535 ids are used its 16-bit
        counter wraps. */
    method AddCapiAppl() returns (id: word)
      requires Valid()
      modifies this
      ensures var (after, r) := AddAppl(old(ids), maxAppls); ids == after && id == r
      ensures Serves(old(ids), maxAppls) <==> !(maxAppls == 65535 && |old(ids)| == 65535)
      ensures !(maxAppls == 65535 && |old(ids)| == 65535) ==> Valid()
    {
      ApplAlloc(ids, maxAppls);
      ServedValid(ids, maxAppls);
      id := Walked();
    }

    /** The walk over the list, with its 16-bit counter. */
    method Walked() returns (id: word)
      modifies this
      ensures var (after, r) := AddAppl(old(ids), maxAppls); ids == after && id == r
    {
      var a := 0;
      id := 1;
      while a < |ids| && ids[a] <= id as nat
        invariant a <= |ids| && ids == old(ids) && id == Count(1 + a)
        invariant Walk(ids, 1) == Walk(ids[a..], id) + a
      {
        assert ids[a..][1..] == ids[a + 1..];
        a, id := a + 1, Next(id);
      }
      if id > maxAppls { return 0; }
      ids := ids[..a] + [id as nat] + ids[a..];
    }

    /** list_del in capi_release. */
    method Release(id: nat)
      requires Valid() && id in ids
      modifies this
      ensures Valid() && ids == Remove(old(ids), id)
      ensures forall n :: n in ids <==> n in old(ids) && n != id
    {
      FreeKeeps(ids, 1, id);
      RemoveBound(ids, id, maxAppls);
      ids := ListDel(ids, id);
    }
  }

  /** One step of a 16-bit counter, and the counter after n steps. */
  function Next(id: word): word { if id == 65535 then 0 else id + 1 }

  function Count(n: nat): word { if n == 0 then 0 else Next(Count(n - 1)) }

  lemma {:induction false} CountSmall(n: nat)
    requires n < WORDS
    ensures Count(n) == n
  {
    if n > 0 { CountSmall(n - 1); }
  }

  /** Where the walk of add_capi_appl stops, its counter wrapping at 65536. */
  function Walk(ids: seq<nat>, id: word): (k: nat)
    ensures k <= |ids|
  {
    if ids == [] || ids[0] > id as nat then 0 else 1 + Walk(ids[1..], Next(id))
  }

  /** add_capi_appl: the list and the id afterwards; id 0 means there was none. */
  function AddAppl(ids: seq<nat>, maxAppls: word): (seq<nat>, word) {
    var k := Walk(ids, 1);
    var id := Count(1 + k);
    if id > maxAppls then (ids, 0) else (Insert(ids, k, id), id)
  }

  lemma {:induction false} WalkIsStop(ids: seq<nat>, id: word)
    requires Increasing(ids) && From(ids, id) && forall i :: 0 <= i < |ids| ==> ids[i] < WORDS
    ensures Walk(ids, id) == Stop(ids, id)
  {
    if ids != [] && ids[0] <= id as nat {
      var t := ids[1..];
      if t != [] {
        assert Below(ids, 0, 1);
        assert id + 1 < WORDS;
        assert From(t, id + 1) by {
          forall i | 0 <= i < |t| ensures id + 1 <= t[i] { assert Below(ids, 0, i + 1); }
        }
        TailIncreasing(ids);
        WalkIsStop(t, id + 1);
      }
    }
  }

  /** What add_capi_appl is meant to do: enter the least unused id up to the maximum, or refuse. */
  predicate Serves(ids: seq<nat>, maxAppls: word) {
    var k := Stop(ids, 1);
    AddAppl(ids, maxAppls) == if 1 + k <= maxAppls then (Insert(ids, k, 1 + k), 1 + k) else (ids, 0)
  }

  /** It does so exactly unless the maximum is 65535 and all 65535 ids are in use: then the application is
      entered under id 0 although it is told that there are too many. */
  lemma ApplAlloc(ids: seq<nat>, maxAppls: word)
    requires Increasing(ids) && From(ids, 1) && forall i :: 0 <= i < |ids| ==> ids[i] <= maxAppls
    ensures Serves(ids, maxAppls) <==> !(maxAppls == 65535 && |ids| == 65535)
  {
    WalkIsStop(ids, 1);
    StopBelow(ids, maxAppls);
    var k := Stop(ids, 1);
    if maxAppls == 65535 && |ids| == 65535 {
      AllUsed(ids);
      CountSmall(65535);
      assert Count(65536) == 0 && |AddAppl(ids, maxAppls).0| == |ids| + 1;
    } else {
      CountSmall(1 + k);
    }
  }

  /** A list on which the allocator does what it should stays in order. */
  lemma ServedValid(ids: seq<nat>, maxAppls: word)
    requires Increasing(ids) && From(ids, 1) && forall i :: 0 <= i < |ids| ==> ids[i] <= maxAppls
    ensures Serves(ids, maxAppls) ==>
      var r := AddAppl(ids, maxAppls).0; Increasing(r) && From(r, 1) && forall i :: 0 <= i < |r| ==> r[i] <= maxAppls
  {
    AllocKeeps(ids, 1);
  }

  lemma {:induction false} RemoveBound(ids: seq<nat>, id: nat, max: nat)
    requires forall i :: 0 <= i < |ids| ==> ids[i] <= max
    ensures var r := Remove(ids, id); forall i :: 0 <= i < |r| ==> r[i] <= max
  {
    if ids != [] {
      var t, r := ids[1..], Remove(ids, id);
      RemoveBound(t, id, max);
      forall i | 0 <= i < |r| ensures r[i] <= max {
        assert r[i] == if ids[0] == id then ids[i + 1] else if i == 0 then ids[0] else Remove(t, id)[i - 1];
      }
    }
  }

  /** When all ids are used the counter wraps, and the new application is entered at the end under id 0. */
  lemma WrapsWhenFull(ids: seq<nat>)
    requires Increasing(ids) && From(ids, 1) && |ids| == 65535 && forall i :: 0 <= i < |ids| ==> ids[i] <= 65535
    ensures AddAppl(ids, 65535) == (ids + [0], 0)
  {
    AllUsed(ids);
    WalkIsStop(ids, 1);
    CountSmall(65535);
    assert Count(65536) == 0 && Insert(ids, 65535, 0) == ids + [0];
  }

  /** There is such a list, and it is out of order afterwards. */
  lemma ApplWraps()
    ensures var ids := AllIds();
      && Increasing(ids) && From(ids, 1) && (forall i :: 0 <= i < |ids| ==> ids[i] <= 65535)
      && !Serves(ids, 65535) && AddAppl(ids, 65535) == (ids + [0], 0) && !Increasing(ids + [0])
  {
    var ids := AllIds();
    forall i, j | 0 <= i < j < |ids| ensures Below(ids, i, j) { }
    ApplAlloc(ids, 65535);
    WrapsWhenFull(ids);
    assert !Below(ids + [0], 0, 65535);
  }

  function AllIds(): (ids: seq<nat>)
    ensures |ids| == 65535 && forall i :: 0 <= i < 65535 ==> ids[i] == i + 1
  {
    seq(65535, i => i + 1)
  }

  lemma StopBelow(ids: seq<nat>, maxAppls: word)
    requires Increasing(ids) && From(ids, 1) && forall i :: 0 <= i < |ids| ==> ids[i] <= maxAppls
    ensures Stop(ids, 1) <= |ids| <= maxAppls
  {
    if ids != [] { Spread(ids, 0); }
  }

  lemma AllUsed(ids: seq<nat>)
    requires Increasing(ids) && From(ids, 1) && |ids| == 65535 && forall i :: 0 <= i < |ids| ==> ids[i] <= 65535
    ensures Stop(ids, 1) == 65535
  {
    Dense(ids, 1);
    var k := Stop(ids, 1);
    if k < |ids| { Spread(ids, k); }
  }

  /** A strictly increasing list grows by at least one per entry. */
  lemma {:induction false} Spread(ids: seq<nat>, k: nat)
    requires Increasing(ids) && k < |ids|
    ensures ids[|ids| - 1] >= ids[k] + (|ids| - 1 - k)
    decreases |ids| - k
  {
    if k < |ids| - 1 {
      assert Below(ids, k, k + 1);
      Spread(ids, k + 1);
    }
  }
}
