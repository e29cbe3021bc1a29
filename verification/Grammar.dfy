/** Parameter programs of capiutil.c, the values they describe, and the coding CAPI 2.0 gives to those
    values (Part I, sections 3.2 and 3.3): words, double words, length-prefixed structs and structs
    composed of parameters.  Nothing here knows about cursors or buffers written in place. */
module Grammar {
  import opened Wire

  /** A _cstruct: a null pointer, or a pointer to a length-prefixed struct, whose bytes are kept. */
  datatype CStruct = Null | Ptr(bytes: seq<byte>)

  /** The bytes s start with a complete struct. */
  predicate StructFits(s: seq<byte>) {
    s != [] && (s[0] == 0xff ==> 3 <= |s|) && StructSize(s) <= |s|
  }

  /** The number of bytes of the struct s starts with, prefix included. */
  function StructSize(s: seq<byte>): (n: nat)
    requires s != [] && (s[0] == 0xff ==> 3 <= |s|)
  {
    if s[0] != 0xff then 1 + s[0] else 3 + U16(s, 1)
  }

  predicate IsStruct(b: seq<byte>) {
    StructFits(b) && StructSize(b) == |b|
  }

  /** The types of cdef that are not composed, and a value of such a type. */
  datatype Kind = WordKind | DWordKind | StructKind

  datatype Value = W(w: word) | D(d: dword) | S(s: CStruct) {
    function Kind(): Kind {
      match this
      case W(_) => WordKind
      case D(_) => DWordKind
      case S(_) => StructKind
    }

    predicate Valid() {
      S? && s.Ptr? ==> IsStruct(s.bytes)
    }

    function Code(): (b: seq<byte>) {
      match this
      case W(w) => Bytes16(w)
      case D(d) => Bytes32(d)
      case S(s) => if s.Null? then [0] else s.bytes
    }

    /** What the value is once it has been on the wire: a null struct is an empty one. */
    function Normal(): Value {
      if this == S(Null) then S(Ptr([0])) else this
    }
  }

  /** One entry of a parameter program: what TYP and OFF of cdef[par[p]] yield. */
  datatype Op = End | Item(kind: Kind, code: byte) | Meta(code: byte)

  /** A parsed program: parameters in order, a composed struct holding its own parameters. */
  datatype Items =
    | Nil
    | Item(kind: Kind, code: byte, tail: Items)
    | Group(code: byte, members: Items, tail: Items)

  function Flatten(items: Items): (ops: seq<Op>) {
    match items
    case Nil => []
    case Item(k, c, tail) => [Op.Item(k, c)] + Flatten(tail)
    case Group(c, members, tail) => [Op.Meta(c)] + (Flatten(members) + ([Op.End] + Flatten(tail)))
  }

  /** No composed struct is empty or starts with a composed struct. */
  predicate WellFormed(items: Items) {
    match items
    case Nil => true
    case Item(_, _, tail) => WellFormed(tail)
    case Group(_, members, tail) => members.Item? && WellFormed(members) && WellFormed(tail)
  }

  function Codes(items: Items): set<byte> {
    match items
    case Nil => {}
    case Item(_, c, tail) => {c} + Codes(tail)
    case Group(c, members, tail) => {c} + Codes(members) + Codes(tail)
  }

  /** No parameter is listed twice. */
  predicate Distinct(items: Items) {
    match items
    case Nil => true
    case Item(_, c, tail) => c !in Codes(tail) && Distinct(tail)
    case Group(c, members, tail) =>
      && c !in Codes(members) && c !in Codes(tail) && Codes(members) !! Codes(tail)
      && Distinct(members) && Distinct(tail)
  }

  /** Parameter values in program order.  A composed struct is either left to its default or given by
      the values of its members. */
  datatype Values =
    | Done
    | Scalar(code: byte, val: Value, tail: Values)
    | Default(code: byte, members: Items, tail: Values)
    | Composed(code: byte, parts: Values, tail: Values)

  /** The program a list of values answers to. */
  function Shape(v: Values): Items {
    match v
    case Done => Nil
    case Scalar(c, val, tail) => Items.Item(val.Kind(), c, Shape(tail))
    case Default(c, members, tail) => Group(c, members, Shape(tail))
    case Composed(c, parts, tail) => Group(c, Shape(parts), Shape(tail))
  }

  /** Every struct is well-formed and every composed struct has at least one member. */
  predicate Valid(v: Values) {
    match v
    case Done => true
    case Scalar(_, val, tail) => val.Valid() && Valid(tail)
    case Default(_, _, tail) => Valid(tail)
    case Composed(_, parts, tail) => parts != Done && Valid(parts) && Valid(tail)
  }

  function Normal(v: Values): Values {
    match v
    case Done => Done
    case Scalar(c, val, tail) => Scalar(c, val.Normal(), Normal(tail))
    case Default(c, members, tail) => Default(c, members, Normal(tail))
    case Composed(c, parts, tail) => Composed(c, Normal(parts), Normal(tail))
  }

  /** A struct body with its length prefix: one byte below 255, the escape 255 and a word otherwise. */
  function Prefixed(body: seq<byte>): (b: seq<byte>) {
    if |body| < 0xff then [|body|] + body else [0xff] + Bytes16(|body| % WORDS) + body
  }

  /** The coding the standard prescribes. */
  function Encode(v: Values): (b: seq<byte>) {
    match v
    case Done => []
    case Scalar(_, val, tail) => val.Code() + Encode(tail)
    case Default(_, _, tail) => [0] + Encode(tail)
    case Composed(_, parts, tail) => Prefixed(Encode(parts)) + Encode(tail)
  }

  predicate ScalarFits(k: Kind, s: seq<byte>) {
    match k
    case WordKind => 2 <= |s|
    case DWordKind => 4 <= |s|
    case StructKind => StructFits(s)
  }

  function ScalarIn(k: Kind, s: seq<byte>): (v: Value)
    requires ScalarFits(k, s)
  {
    match k
    case WordKind => W(U16(s, 0))
    case DWordKind => D(U32(s, 0))
    case StructKind => S(Ptr(s[..StructSize(s)]))
  }

  /** How many bytes a parameter of this kind takes at the start of s. */
  function ScalarSize(k: Kind, s: seq<byte>): (n: nat)
    requires ScalarFits(k, s)
    ensures 0 < n <= |s|
  {
    match k
    case WordKind => 2
    case DWordKind => 4
    case StructKind => StructSize(s)
  }

  /** The size of the length prefix of the composed struct s starts with. */
  function PrefixSize(s: seq<byte>): (k: nat)
    requires s != []
  {
    if s[0] == 0xff then 3 else 1
  }

  datatype Parse = Bad | Parsed(vals: Values, rest: seq<byte>)

  /** The reader: the values of the parameters coded at the start of s, and the bytes behind them.  As in
      the driver, the value of a composed struct's length prefix is not used beyond telling the three
      prefix forms apart. */
  function Decode(items: Items, s: seq<byte>): (r: Parse)
    ensures r.Parsed? ==> Shape(r.vals) == items && |r.rest| <= |s|
  {
    match items
    case Nil => Parsed(Done, s)
    case Item(k, c, tail) =>
      if !ScalarFits(k, s) then Bad
      else
        var r := Decode(tail, s[ScalarSize(k, s)..]);
        if r.Bad? then Bad else Parsed(Scalar(c, ScalarIn(k, s), r.vals), r.rest)
    case Group(c, members, tail) =>
      if s == [] then Bad
      else if s[0] == 0 then
        var r := Decode(tail, s[1..]);
        if r.Bad? then Bad else Parsed(Default(c, members, r.vals), r.rest)
      else if PrefixSize(s) > |s| then Bad
      else
        var q := Decode(members, s[PrefixSize(s)..]);
        if q.Bad? then Bad
        else
          var r := Decode(tail, q.rest);
          if r.Bad? then Bad else Parsed(Composed(c, q.vals, r.vals), r.rest)
  }

  lemma ScalarFront(val: Value, rest: seq<byte>)
    requires val.Valid()
    ensures var s := val.Code() + rest;
      && ScalarFits(val.Kind(), s) && ScalarSize(val.Kind(), s) == |val.Code()|
      && ScalarIn(val.Kind(), s) == val.Normal() && s[|val.Code()|..] == rest
  {
    match val
    case W(w) => WordFront(w, rest);
    case D(d) => DWordFront(d, rest);
    case S(_) =>
  }

  lemma FrontScalar(k: Kind, s: seq<byte>)
    requires ScalarFits(k, s)
    ensures var val := ScalarIn(k, s);
      && val.Valid() && val.Normal() == val && val.Kind() == k
      && |val.Code()| == ScalarSize(k, s) && s == val.Code() + s[ScalarSize(k, s)..]
  {
    match k
    case WordKind => FrontWord(s);
    case DWordKind => FrontDWord(s);
    case StructKind =>
  }

  lemma {:induction false} EncodeNonempty(v: Values)
    requires Valid(v) && v != Done
    ensures Encode(v) != []
  {
  }

  lemma PrefixedFront(body: seq<byte>, rest: seq<byte>)
    requires body != []
    ensures var s := Prefixed(body) + rest;
      && s != [] && s[0] != 0 && PrefixSize(s) <= |s| && s[PrefixSize(s)..] == body + rest
  {
    var p := if |body| < 0xff then [|body|] else [0xff] + Bytes16(|body| % WORDS);
    Assoc(p, body, rest);
  }

  /** Reading back what was coded gives the values again, whatever follows the coding. */
  lemma {:induction false} DecodeEncode(v: Values, rest: seq<byte>)
    requires Valid(v)
    ensures Decode(Shape(v), Encode(v) + rest) == Parsed(Normal(v), rest)
  {
    match v
    case Done =>
      assert Encode(v) + rest == rest;
    case Scalar(_, val, tail) =>
      Assoc(val.Code(), Encode(tail), rest);
      ScalarFront(val, Encode(tail) + rest);
      DecodeEncode(tail, rest);
    case Default(_, _, tail) =>
      Assoc([0], Encode(tail), rest);
      DecodeEncode(tail, rest);
    case Composed(_, parts, tail) =>
      Assoc(Prefixed(Encode(parts)), Encode(tail), rest);
      EncodeNonempty(parts);
      PrefixedFront(Encode(parts), Encode(tail) + rest);
      DecodeEncode(parts, Encode(tail) + rest);
      DecodeEncode(tail, rest);
  }

  /** The parameters at the start of s use the exact short form for every composed struct. */
  predicate Canonical(items: Items, s: seq<byte>)
    requires Decode(items, s).Parsed?
  {
    match items
    case Nil => true
    case Item(k, _, tail) => Canonical(tail, s[ScalarSize(k, s)..])
    case Group(_, members, tail) =>
      if s[0] == 0 then Canonical(tail, s[1..])
      else
        && s[0] != 0xff && |s| == 1 + s[0] + |Decode(members, s[1..]).rest|
        && Canonical(members, s[1..]) && Canonical(tail, Decode(members, s[1..]).rest)
  }

  /** On canonical input, coding what was read gives the very same bytes, structs in the long form
      included. */
  lemma {:induction false} EncodeDecode(items: Items, s: seq<byte>)
    requires Decode(items, s).Parsed? && Canonical(items, s)
    ensures var r := Decode(items, s); s == Encode(r.vals) + r.rest
  {
    match items
    case Nil =>
    case Item(k, _, tail) =>
      FrontScalar(k, s);
      var t := s[ScalarSize(k, s)..];
      EncodeDecode(tail, t);
      Assoc(ScalarIn(k, s).Code(), Encode(Decode(tail, t).vals), Decode(tail, t).rest);
    case Group(_, members, tail) =>
      if s[0] == 0 {
        EncodeDecode(tail, s[1..]);
        assert s == [0] + s[1..];
        Assoc([0], Encode(Decode(tail, s[1..]).vals), Decode(tail, s[1..]).rest);
      } else {
        var q := Decode(members, s[1..]);
        var r := Decode(tail, q.rest);
        EncodeDecode(members, s[1..]);
        EncodeDecode(tail, q.rest);
        ShortGroup(s, Encode(q.vals), Encode(r.vals), r.rest);
      }
  }

  lemma ShortGroup(s: seq<byte>, body: seq<byte>, t: seq<byte>, rest: seq<byte>)
    requires s != [] && s[0] == |body| < 0xff && s[1..] == body + (t + rest)
    ensures s == (Prefixed(body) + t) + rest
  {
    assert s == [s[0]] + s[1..];
    Assoc([s[0]], body, t + rest);
    Assoc(Prefixed(body), t, rest);
  }

  /** Whatever the reader accepts is a valid value, if the program's composed structs have members. */
  lemma {:induction false} DecodeValid(items: Items, s: seq<byte>)
    requires WellFormed(items) && Decode(items, s).Parsed?
    ensures var v := Decode(items, s).vals; Valid(v) && Normal(v) == v
  {
    match items
    case Nil =>
    case Item(k, _, tail) =>
      FrontScalar(k, s);
      DecodeValid(tail, s[ScalarSize(k, s)..]);
    case Group(_, members, tail) =>
      if s[0] == 0 {
        DecodeValid(tail, s[1..]);
      } else {
        DecodeValid(members, s[PrefixSize(s)..]);
        DecodeValid(tail, Decode(members, s[PrefixSize(s)..]).rest);
      }
  }
}
