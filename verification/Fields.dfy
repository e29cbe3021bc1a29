/** The parameter fields of a _cmsg, addressed by parameter code as cdef addresses them, and how a
    parameter program picks values out of them and puts values into them. */
module Fields {
  import opened Wire
  import opened Grammar

  /** A field that was never assigned is zero: the structure starts out cleared.  In defaults, true
      stands for CAPI_DEFAULT and false (zero) for CAPI_COMPOSE. */
  datatype Fields = Fields(words: map<byte, word>, dwords: map<byte, dword>,
                           structs: map<byte, CStruct>, defaults: map<byte, bool>) {
    function Word(c: byte): word { if c in words then words[c] else 0 }

    function DWord(c: byte): dword { if c in dwords then dwords[c] else 0 }

    function Struct(c: byte): CStruct { if c in structs then structs[c] else Null }

    predicate IsDefault(c: byte) { c in defaults && defaults[c] }

    function Get(k: Kind, c: byte): (v: Value)
      ensures v.Kind() == k
    {
      match k
      case WordKind => W(Word(c))
      case DWordKind => D(DWord(c))
      case StructKind => S(Struct(c))
    }

    function Set(c: byte, v: Value): (f: Fields)
      ensures f.Get(v.Kind(), c) == v
      ensures forall d {:trigger Same(f, d)} :: d != c ==> Same(f, d)
    {
      match v
      case W(w) => this.(words := words[c := w])
      case D(d) => this.(dwords := dwords[c := d])
      case S(s) => this.(structs := structs[c := s])
    }

    function SetDefault(c: byte, b: bool): (f: Fields)
      ensures f.IsDefault(c) == b
      ensures forall d {:trigger Same(f, d)} :: d != c ==> Same(f, d)
    {
      this.(defaults := defaults[c := b])
    }

    /** Both structures agree on everything filed under c. */
    predicate Same(g: Fields, c: byte) {
      Word(c) == g.Word(c) && DWord(c) == g.DWord(c) && Struct(c) == g.Struct(c) && IsDefault(c) == g.IsDefault(c)
    }

    predicate Zero(c: byte) {
      Word(c) == 0 && DWord(c) == 0 && Struct(c) == Null && !IsDefault(c)
    }
  }

  const CLEARED := Fields(map[], map[], map[], map[])

  /** The values a program asks for. */
  function Collect(items: Items, f: Fields): (v: Values)
    ensures Shape(v) == items
  {
    match items
    case Nil => Done
    case Item(k, c, tail) => Scalar(c, f.Get(k, c), Collect(tail, f))
    case Group(c, members, tail) =>
      if f.IsDefault(c) then Default(c, members, Collect(tail, f))
      else Composed(c, Collect(members, f), Collect(tail, f))
  }

  /** The structure after the values have been stored, in program order. */
  function Store(v: Values, f: Fields): Fields {
    match v
    case Done => f
    case Scalar(c, val, tail) => Store(tail, f.Set(c, val))
    case Default(c, _, tail) => Store(tail, f.SetDefault(c, true))
    case Composed(c, parts, tail) => Store(tail, Store(parts, f.SetDefault(c, false)))
  }

  /** The parameters that Store assigns: not those inside a composed struct left to its default. */
  function Stored(v: Values): set<byte> {
    match v
    case Done => {}
    case Scalar(c, _, tail) => {c} + Stored(tail)
    case Default(c, _, tail) => {c} + Stored(tail)
    case Composed(c, parts, tail) => {c} + Stored(parts) + Stored(tail)
  }

  lemma {:induction false} StoredListed(v: Values)
    ensures Stored(v) <= Codes(Shape(v))
  {
    match v
    case Done =>
    case Scalar(_, _, tail) => StoredListed(tail);
    case Default(_, _, tail) => StoredListed(tail);
    case Composed(_, parts, tail) => StoredListed(parts); StoredListed(tail);
  }

  /** Storing leaves every other parameter alone. */
  lemma {:induction false} StoreFrame(v: Values, f: Fields, c: byte)
    requires c !in Stored(v)
    ensures f.Same(Store(v, f), c)
  {
    match v
    case Done =>
    case Scalar(d, val, tail) =>
      assert f.Same(f.Set(d, val), c);
      StoreFrame(tail, f.Set(d, val), c);
    case Default(d, _, tail) =>
      assert f.Same(f.SetDefault(d, true), c);
      StoreFrame(tail, f.SetDefault(d, true), c);
    case Composed(d, parts, tail) =>
      var g := f.SetDefault(d, false);
      assert f.Same(g, c);
      StoreFrame(parts, g, c);
      StoreFrame(tail, Store(parts, g), c);
  }

  /** Only the listed parameters matter for what a program collects. */
  lemma {:induction false} CollectFrame(items: Items, f: Fields, g: Fields)
    requires forall c :: c in Codes(items) ==> f.Same(g, c)
    ensures Collect(items, f) == Collect(items, g)
  {
    match items
    case Nil =>
    case Item(_, c, tail) =>
      assert f.Same(g, c);
      CollectFrame(tail, f, g);
    case Group(c, members, tail) =>
      assert f.Same(g, c);
      CollectFrame(members, f, g);
      CollectFrame(tail, f, g);
  }

  lemma KeptByStore(items: Items, v: Values, f: Fields)
    requires Codes(items) !! Codes(Shape(v))
    ensures Collect(items, Store(v, f)) == Collect(items, f)
  {
    StoredListed(v);
    forall c | c in Codes(items) ensures Store(v, f).Same(f, c) {
      StoreFrame(v, f, c);
    }
    CollectFrame(items, Store(v, f), f);
  }

  /** Collecting after storing gives the stored values, when no parameter is listed twice. */
  lemma {:induction false} CollectStore(v: Values, f: Fields)
    requires Distinct(Shape(v))
    ensures Collect(Shape(v), Store(v, f)) == v
  {
    StoredListed(v);
    match v
    case Done =>
    case Scalar(c, val, tail) =>
      StoredListed(tail);
      StoreFrame(tail, f.Set(c, val), c);
      CollectStore(tail, f.Set(c, val));
    case Default(c, _, tail) =>
      StoredListed(tail);
      StoreFrame(tail, f.SetDefault(c, true), c);
      CollectStore(tail, f.SetDefault(c, true));
    case Composed(c, parts, tail) =>
      var g := f.SetDefault(c, false);
      StoredListed(parts);
      StoredListed(tail);
      StoreFrame(parts, g, c);
      StoreFrame(tail, Store(parts, g), c);
      CollectStore(parts, g);
      KeptByStore(Shape(parts), tail, Store(parts, g));
      CollectStore(tail, Store(parts, g));
  }
}
