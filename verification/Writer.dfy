/** What pars_2_message leaves in the message: the coding of the standard, except that a composed struct
    of 255 bytes or more loses the last two bytes of its body, because the cursor is not advanced when
    the body is moved up to make room for the long prefix. */
module Writer {
  import opened Wire
  import opened Grammar

  function Squeezed(body: seq<byte>): (b: seq<byte>)
    ensures |b| == 1 + |body|
  {
    if |body| < 0xff then [|body|] + body
    else [0xff] + Bytes16(|body| % WORDS) + body[..|body| - 2]
  }

  function Written(v: Values): (b: seq<byte>) {
    match v
    case Done => []
    case Scalar(_, val, tail) => val.Code() + Written(tail)
    case Default(_, _, tail) => [0] + Written(tail)
    case Composed(_, parts, tail) => Squeezed(Written(parts)) + Written(tail)
  }

  /** No composed struct has a body of 255 bytes or more. */
  predicate AllShort(v: Values) {
    match v
    case Done => true
    case Scalar(_, _, tail) => AllShort(tail)
    case Default(_, _, tail) => AllShort(tail)
    case Composed(_, parts, tail) => |Written(parts)| < 0xff && AllShort(parts) && AllShort(tail)
  }

  lemma {:induction false} WrittenShort(v: Values)
    requires AllShort(v)
    ensures Written(v) == Encode(v)
  {
    match v
    case Done =>
    case Scalar(_, _, tail) => WrittenShort(tail);
    case Default(_, _, tail) => WrittenShort(tail);
    case Composed(_, parts, tail) => WrittenShort(parts); WrittenShort(tail);
  }

  /** A body that holds a long struct is long itself, and every long struct costs the message bytes. */
  lemma {:induction false} WrittenLength(v: Values)
    ensures |Written(v)| <= |Encode(v)|
    ensures !AllShort(v) ==> 0xff < |Written(v)| < |Encode(v)|
  {
    match v
    case Done =>
    case Scalar(_, _, tail) => WrittenLength(tail);
    case Default(_, _, tail) => WrittenLength(tail);
    case Composed(_, parts, tail) => WrittenLength(parts); WrittenLength(tail);
  }

  /** The writer follows the standard exactly when every composed struct is short. */
  lemma WritesStandard(v: Values)
    ensures Written(v) == Encode(v) <==> AllShort(v)
  {
    WrittenLength(v);
    if AllShort(v) { WrittenShort(v); }
  }

  /** The reader takes at least as many bytes as the writer produces for the values read. */
  lemma {:induction false} ReaderTakes(items: Items, s: seq<byte>, v: Values)
    requires Decode(items, s).Parsed? && Decode(items, s).vals == Normal(v)
    ensures |Decode(items, s).rest| + |Written(v)| <= |s|
  {
    match items
    case Nil =>
    case Item(k, _, tail) =>
      FrontScalar(k, s);
      assert |v.val.Code()| == |v.val.Normal().Code()|;
      ReaderTakes(tail, s[ScalarSize(k, s)..], v.tail);
    case Group(_, members, tail) =>
      if s[0] == 0 {
        ReaderTakes(tail, s[1..], v.tail);
      } else {
        ReaderTakes(members, s[PrefixSize(s)..], v.parts);
        ReaderTakes(tail, Decode(members, s[PrefixSize(s)..]).rest, v.tail);
      }
  }

  /** If some composed struct is long, a reader that finds all the values again has read past the end of
      what was written. */
  lemma {:induction false} LongOverruns(v: Values, rest: seq<byte>)
    requires Valid(v) && !AllShort(v)
    requires var r := Decode(Shape(v), Written(v) + rest); r.Parsed? && r.vals == Normal(v)
    ensures |Decode(Shape(v), Written(v) + rest).rest| < |rest|
  {
    match v
    case Scalar(_, val, tail) =>
      Assoc(val.Code(), Written(tail), rest);
      ScalarFront(val, Written(tail) + rest);
      LongOverruns(tail, rest);
    case Default(_, _, tail) =>
      Assoc([0], Written(tail), rest);
      LongOverruns(tail, rest);
    case Composed(_, parts, tail) =>
      var s, body := Written(v) + rest, Written(parts);
      Assoc(Squeezed(body), Written(tail), rest);
      if |body| < 0xff {
        WrittenLength(parts);
        WrittenShort(parts);
        EncodeNonempty(parts);
        PrefixedFront(body, Written(tail) + rest);
        DecodeEncode(parts, Written(tail) + rest);
        LongOverruns(tail, rest);
      } else {
        assert s[0] == 0xff;
        ReaderTakes(Shape(parts), s[3..], parts);
        ReaderTakes(Shape(tail), Decode(Shape(parts), s[3..]).rest, tail);
      }
  }

  /** Reading what was written gives back all values, and ends where the writing ended, exactly when
      every composed struct is short. */
  lemma RoundTrip(v: Values, rest: seq<byte>)
    requires Valid(v)
    ensures Decode(Shape(v), Written(v) + rest) == Parsed(Normal(v), rest) <==> AllShort(v)
  {
    if AllShort(v) {
      WrittenShort(v);
      DecodeEncode(v, rest);
    } else if Decode(Shape(v), Written(v) + rest) == Parsed(Normal(v), rest) {
      LongOverruns(v, rest);
    }
  }

  /** What the reader accepts as canonical, the writer reproduces byte for byte. */
  lemma {:induction false} CanonicalShort(items: Items, s: seq<byte>)
    requires Decode(items, s).Parsed? && Canonical(items, s)
    ensures AllShort(Decode(items, s).vals)
  {
    match items
    case Nil =>
    case Item(k, _, tail) => CanonicalShort(tail, s[ScalarSize(k, s)..]);
    case Group(_, members, tail) =>
      if s[0] == 0 {
        CanonicalShort(tail, s[1..]);
      } else {
        var q := Decode(members, s[1..]);
        CanonicalShort(members, s[1..]);
        CanonicalShort(tail, q.rest);
        EncodeDecode(members, s[1..]);
        WrittenShort(q.vals);
      }
  }

  lemma {:induction false} ShortCanonical(v: Values, rest: seq<byte>)
    requires Valid(v) && AllShort(v)
    ensures Decode(Shape(v), Encode(v) + rest) == Parsed(Normal(v), rest)
    ensures Canonical(Shape(v), Encode(v) + rest)
  {
    DecodeEncode(v, rest);
    match v
    case Done =>
    case Scalar(_, val, tail) =>
      Assoc(val.Code(), Encode(tail), rest);
      ScalarFront(val, Encode(tail) + rest);
      ShortCanonical(tail, rest);
    case Default(_, _, tail) =>
      Assoc([0], Encode(tail), rest);
      ShortCanonical(tail, rest);
    case Composed(_, parts, tail) =>
      WrittenShort(parts);
      Assoc(Prefixed(Encode(parts)), Encode(tail), rest);
      EncodeNonempty(parts);
      PrefixedFront(Encode(parts), Encode(tail) + rest);
      ShortCanonical(parts, Encode(tail) + rest);
      ShortCanonical(tail, rest);
  }

  /** The writer reproduces the bytes that were read exactly when they are canonical. */
  lemma Reproduces(items: Items, s: seq<byte>)
    requires WellFormed(items) && Decode(items, s).Parsed?
    ensures var r := Decode(items, s); s == Written(r.vals) + r.rest <==> Canonical(items, s)
  {
    var r := Decode(items, s);
    DecodeValid(items, s);
    if Canonical(items, s) {
      CanonicalShort(items, s);
      WrittenShort(r.vals);
      EncodeDecode(items, s);
    }
    if s == Written(r.vals) + r.rest {
      RoundTrip(r.vals, r.rest);
      WrittenShort(r.vals);
      ShortCanonical(r.vals, r.rest);
    }
  }
}
