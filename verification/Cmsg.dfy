/** The _cmsg object of capiutil.c: the cursor code that writes a message into a buffer and reads one
    from it, proved against the grammar. */
module CmsgCodec {
  import opened Wire
  import opened Grammar
  import opened Writer
  import opened Fields
  import opened Programs
  import opened Messages

  function Max(a: nat, b: nat): nat { if a < b then b else a }

  /** How much buffer the writer touches for the values v: moving up the body of a long composed struct
      reaches two bytes further than what is finally written. */
  function Extent(v: Values): (n: nat)
    ensures |Written(v)| <= n
    decreases v, 0
  {
    match v
    case Done => 0
    case Scalar(_, val, tail) => |val.Code()| + Extent(tail)
    case Default(_, _, tail) => 1 + Extent(tail)
    case Composed(_, parts, tail) => Max(ExtentComposed(parts), 1 + |Written(parts)| + Extent(tail))
  }

  function ExtentComposed(parts: Values): (n: nat)
    ensures 1 + |Written(parts)| <= n
    decreases parts, 1
  {
    if |Written(parts)| < 0xff then 1 + Extent(parts) else Max(1 + Extent(parts), 3 + |Written(parts)|)
  }

  /** A counter whose low word is overwritten. */
  function WithLowWord(l: nat, low: word): (n: nat)
    ensures n % WORDS == low && n / WORDS == l / WORDS
  {
    l / WORDS * WORDS + low
  }

  class Cmsg {
    var applId: word
    var command: byte
    var subcommand: byte
    var messagenumber: word
    var fields: Fields
    var l: nat
    var p: nat
    /** cdef[par[i]] for each i: what TYP and OFF look at. */
    var par: seq<Op>
    var m: array<byte>

    function Header(): Header
      reads this
    {
      Messages.Header(applId, command, subcommand, messagenumber)
    }

    /** Skip a composed struct: from its entry to its end marker. */
    method JumpCStruct()
      requires p + 2 <= |par| && Scan(par[p + 2..], 1).Some?
      modifies this`p
      ensures p <= |par| && par[p..] == Scan(par[old(p) + 2..], 1).value
    {
      ghost var target := Scan(par[p + 2..], 1);
      p := p + 1;
      var layer := 1;
      while layer > 0
        invariant layer > 0 ==> p + 1 <= |par| && Scan(par[p + 1..], layer) == target
        invariant layer == 0 ==> p <= |par| && par[p..] == target.value
        invariant layer >= 0
        decreases |par| - p, layer
      {
        ghost var ahead := par[p + 1..];
        p := p + 1;
        assert ahead[0] == par[p] && ahead[1..] == par[p + 1..];
        match par[p] {
          case Meta(_) => layer := layer + 1;
          case End => layer := layer - 1;
          case Item(_, _) =>
        }
      }
    }

    /** For a composed struct the grammar knows, the skip ends on its end marker. */
    method JumpGroup(ghost members: Items, ghost rest: seq<Op>)
      requires p < |par| && par[p + 1..] == Flatten(members) + ([Op.End] + rest) && members.Item?
      modifies this`p
      ensures p <= |par| && par[p..] == [Op.End] + rest
    {
      JumpLands(members, rest);
      assert par[p + 1..][1..] == par[p + 2..];
      JumpCStruct();
    }

    /** Copy d into the buffer. */
    method Put(off: nat, d: seq<byte>)
      requires off + |d| <= m.Length
      modifies m
      ensures m[..] == old(m[..off]) + d + old(m[off + |d|..])
    {
      forall i | 0 <= i < |d| { m[off + i] := d[i]; }
    }

    /** Copy d to the cursor and advance it. */
    method Append(d: seq<byte>)
      requires l + |d| <= m.Length
      modifies this`l, m
      ensures l == old(l) + |d| && m[..l] == old(m[..l]) + d
    {
      forall i | 0 <= i < |d| { m[l + i] := d[i]; }
      l := l + |d|;
    }

    /** Give the struct whose body lies between start + 1 and the cursor its length prefix, moving the
        body up to make room for the long form.  The cursor stays where it is. */
    method Prefix(start: nat)
      requires start < l <= m.Length
      requires 0xff <= l - start - 1 ==> l + 2 <= m.Length
      modifies m
      ensures m[..l] == old(m[..start]) + Squeezed(old(m[start + 1..l]))
    {
      var body := m[start + 1..l];
      if |body| < 0xff {
        ghost var head := m[..start];
        m[start] := |body|;
        assert m[..l] == head + ([|body|] + body);
      } else {
        ghost var was := m[..];
        var prefix := [0xff] + Bytes16(|body| % WORDS);
        Put(start + 3, body);
        Put(start, prefix);
        MovedUp(was, start, prefix, body, m[..]);
        assert m[..l] == m[..][..l] && m[..start] == m[..][..start];
      }
    }

    lemma MovedUp(was: seq<byte>, start: nat, prefix: seq<byte>, body: seq<byte>, now: seq<byte>)
      requires |prefix| == 3 && 2 <= |body| && start + 3 + |body| <= |was|
      requires var moved := was[..start + 3] + body + was[start + 3 + |body|..];
        now == moved[..start] + prefix + moved[start + 3..]
      ensures now[..start + 1 + |body|] == was[..start] + (prefix + body[..|body| - 2])
    {
      var moved := was[..start + 3] + body + was[start + 3 + |body|..];
      assert moved[start + 3..] == body + was[start + 3 + |body|..];
      assert moved[..start] == was[..start];
    }

    /** Write a composed struct whose members start behind the cursor, and stop on its end marker. */
    method PutComposed(ghost members: Items, ghost after: seq<Op>)
      requires WellFormed(members) && members.Item?
      requires p < |par| && par[p + 1..] == Flatten(members) + ([Op.End] + after)
      requires Valid(Collect(members, fields))
      requires l + ExtentComposed(Collect(members, fields)) <= m.Length
      modifies this`l, this`p, m
      ensures p <= |par| && par[p..] == [Op.End] + after
      ensures l <= m.Length && m[..l] == old(m[..l]) + Squeezed(Written(Collect(members, fields)))
      decreases members, 3
    {
      ghost var body := Written(Collect(members, fields));
      ghost var head := m[..l];
      var start := l;
      l := l + 1;
      p := p + 1;
      ghost var front := m[..l];
      Pars2Message(members, after);
      assert l == start + 1 + |body| && front[..start] == head;
      assert m[..l][start + 1..] == body && m[..l][..start] == head;
      assert m[..start] == head && m[start + 1..l] == body;
      Prefix(start);
    }

    /** Write the parameter at the cursor, and stop on its last entry. */
    method PutItem(ghost items: Items, ghost end: seq<Op>)
      requires WellFormed(items) && items != Nil && p <= |par| && par[p..] == Flatten(items) + end
      requires Valid(Collect(items, fields)) && l + Extent(Collect(items, fields)) <= m.Length
      modifies this`l, this`p, m
      ensures p < |par| && par[p + 1..] == Flatten(items.tail) + end
      ensures WellFormed(items.tail) && Valid(Collect(items.tail, fields))
      ensures l + Extent(Collect(items.tail, fields)) <= m.Length
      ensures m[..l] + Written(Collect(items.tail, fields)) == old(m[..l]) + Written(Collect(items, fields))
      decreases items, 1
    {
      ghost var written := m[..l];
      ghost var after, later := Flatten(items.tail) + end, Written(Collect(items.tail, fields));
      Ahead(items, end);
      match par[p] {
        case Item(k, c) =>
          var d := fields.Get(k, c).Code();
          Append(d);
          Assoc(written, d, later);
        case Meta(c) =>
          if fields.IsDefault(c) {
            Append([0]);
            JumpGroup(items.members, after);
            Assoc(written, [0], later);
          } else {
            PutComposed(items.members, after);
            Assoc(written, Squeezed(Written(Collect(items.members, fields))), later);
          }
          Behind(after);
      }
    }

    /** Write the parameters of a program, up to its end marker. */
    method Pars2Message(ghost items: Items, ghost rest: seq<Op>)
      requires WellFormed(items) && p <= |par| && par[p..] == Flatten(items) + ([Op.End] + rest)
      requires Valid(Collect(items, fields)) && l + Extent(Collect(items, fields)) <= m.Length
      modifies this`l, this`p, m
      ensures p <= |par| && par[p..] == [Op.End] + rest
      ensures l <= m.Length && m[..l] == old(m[..l]) + Written(Collect(items, fields))
      decreases items, 2
    {
      ghost var todo, end := items, [Op.End] + rest;
      AtEnd(todo, rest);
      while par[p] != Op.End
        invariant todo == items || todo < items
        invariant p < |par| && (par[p] == Op.End <==> todo == Nil)
        invariant WellFormed(todo) && p <= |par| && par[p..] == Flatten(todo) + end
        invariant Valid(Collect(todo, fields)) && l + Extent(Collect(todo, fields)) <= m.Length
        invariant m[..l] + Written(Collect(todo, fields)) == old(m[..l]) + Written(Collect(items, fields))
        decreases |par| - p
      {
        PutItem(todo, end);
        p := p + 1;
        todo := todo.tail;
        AtEnd(todo, rest);
      }
      assert m[..l] + [] == m[..l];
    }

    lemma AtEnd(items: Items, rest: seq<Op>)
      requires p <= |par| && par[p..] == Flatten(items) + ([Op.End] + rest)
      ensures p < |par| && (par[p] == Op.End <==> items == Nil)
      ensures items == Nil ==> par[p..] == [Op.End] + rest
    {
      assert par[p..][0] == par[p];
    }

    lemma Behind(after: seq<Op>)
      requires p <= |par| && par[p..] == [Op.End] + after
      ensures p < |par| && par[p + 1..] == after
    {
      assert par[p..][1..] == par[p + 1..];
    }

    /** What lies behind the cursor when a parameter of the program starts at it. */
    lemma Ahead(items: Items, end: seq<Op>)
      requires p < |par| && items != Nil && par[p..] == Flatten(items) + end
      ensures var after := Flatten(items.tail) + end;
        par[p + 1..] == if items.Item? then after else Flatten(items.members) + ([Op.End] + after)
      ensures par[p] == if items.Item? then Op.Item(items.kind, items.code) else Meta(items.code)
    {
      assert par[p + 1..] == par[p..][1..];
      if items.Group? { FlattenGroup(items, end); }
    }

    /** What reading the rest of a program gives, from the cursor on. */
    ghost function ToRead(items: Items): Parse
      reads this, m
      requires l <= m.Length
    {
      Decode(items, m[l..])
    }

    /** Read a word, double word or struct into its field; a struct is kept as the bytes it occupies. */
    method TakeScalar(k: Kind, c: byte)
      requires l <= m.Length && ScalarFits(k, m[l..])
      modifies this`l, this`fields
      ensures var s := old(m[l..]);
        l <= m.Length && m[l..] == s[ScalarSize(k, s)..] && fields == old(fields).Set(c, ScalarIn(k, s))
    {
      var s := m[l..];
      match k {
        case WordKind =>
          fields := fields.Set(c, W(U16(s, 0)));
          l := l + 2;
        case DWordKind =>
          fields := fields.Set(c, D(U32(s, 0)));
          l := l + 4;
        case StructKind =>
          var size := if s[0] != 0xff then 1 + s[0] else 3 + U16(s, 1);
          fields := fields.Set(c, S(Ptr(s[..size])));
          l := l + size;
      }
    }

    /** Read a composed struct, and stop on its end marker. */
    method TakeComposed(c: byte, ghost items: Items, ghost end: seq<Op>)
      requires WellFormed(items) && items.Group? && items.code == c && p <= |par| && par[p..] == Flatten(items) + end
      requires l < m.Length && m[l] != 0 && ToRead(items).Parsed?
      modifies this`l, this`p, this`fields
      ensures p <= |par| && par[p..] == [Op.End] + (Flatten(items.tail) + end)
      ensures l <= m.Length && ToRead(items.tail).Parsed?
      ensures ToRead(items.tail).rest == old(ToRead(items)).rest
      ensures Store(ToRead(items.tail).vals, fields) == Store(old(ToRead(items)).vals, old(fields))
      decreases items, 0
    {
      ghost var after := Flatten(items.tail) + end;
      ghost var s := m[l..];
      Ahead(items, end);
      fields := fields.SetDefault(c, false);
      l := if m[l] == 0xff then l + 3 else l + 1;
      assert m[l..] == s[PrefixSize(s)..];
      p := p + 1;
      Message2Pars(items.members, after);
    }

    /** Note that a composed struct has its default, and skip it. */
    method TakeDefault(c: byte, ghost items: Items, ghost end: seq<Op>)
      requires WellFormed(items) && items.Group? && items.code == c && p <= |par| && par[p..] == Flatten(items) + end
      requires l < m.Length && m[l] == 0 && ToRead(items).Parsed?
      modifies this`l, this`p, this`fields
      ensures p <= |par| && par[p..] == [Op.End] + (Flatten(items.tail) + end)
      ensures l <= m.Length && ToRead(items.tail).Parsed?
      ensures ToRead(items.tail).rest == old(ToRead(items)).rest
      ensures Store(ToRead(items.tail).vals, fields) == Store(old(ToRead(items)).vals, old(fields))
    {
      ghost var s := m[l..];
      Ahead(items, end);
      fields := fields.SetDefault(c, true);
      l := l + 1;
      assert m[l..] == s[1..];
      JumpGroup(items.members, Flatten(items.tail) + end);
    }

    /** Read the parameter at the cursor, and stop on its last entry. */
    method TakeItem(ghost items: Items, ghost end: seq<Op>)
      requires WellFormed(items) && items != Nil && p <= |par| && par[p..] == Flatten(items) + end
      requires l <= m.Length && ToRead(items).Parsed?
      modifies this`l, this`p, this`fields
      ensures p < |par| && par[p + 1..] == Flatten(items.tail) + end
      ensures WellFormed(items.tail)
      ensures l <= m.Length && ToRead(items.tail).Parsed?
      ensures ToRead(items.tail).rest == old(ToRead(items)).rest
      ensures Store(ToRead(items.tail).vals, fields) == Store(old(ToRead(items)).vals, old(fields))
      decreases items, 1
    {
      Ahead(items, end);
      match par[p] {
        case Item(k, c) =>
          TakeScalar(k, c);
        case Meta(c) =>
          if m[l] == 0 { TakeDefault(c, items, end); } else { TakeComposed(c, items, end); }
          Behind(Flatten(items.tail) + end);
      }
    }

    /** Read the parameters of a program, up to its end marker. */
    method Message2Pars(ghost items: Items, ghost rest: seq<Op>)
      requires WellFormed(items) && p <= |par| && par[p..] == Flatten(items) + ([Op.End] + rest)
      requires l <= m.Length && ToRead(items).Parsed?
      modifies this`l, this`p, this`fields
      ensures p <= |par| && par[p..] == [Op.End] + rest
      ensures l <= m.Length && m[l..] == old(ToRead(items)).rest
      ensures fields == Store(old(ToRead(items)).vals, old(fields))
      decreases items, 2
    {
      ghost var todo, end := items, [Op.End] + rest;
      AtEnd(todo, rest);
      while par[p] != Op.End
        invariant todo == items || todo < items
        invariant p < |par| && (par[p] == Op.End <==> todo == Nil)
        invariant WellFormed(todo) && p <= |par| && par[p..] == Flatten(todo) + end
        invariant l <= m.Length && ToRead(todo).Parsed? && ToRead(todo).rest == old(ToRead(items)).rest
        invariant Store(ToRead(todo).vals, fields) == Store(old(ToRead(items)).vals, old(fields))
        decreases |par| - p
      {
        TakeItem(todo, end);
        p := p + 1;
        todo := todo.tail;
        AtEnd(todo, rest);
      }
    }

    method TraceScalar(k: Kind)
      requires l <= m.Length && ScalarFits(k, m[l..])
      modifies this`l
      ensures var s := old(m[l..]); l <= m.Length && m[l..] == s[ScalarSize(k, s)..]
    {
      match k {
        case WordKind => l := l + 2;
        case DWordKind => l := l + 4;
        case StructKind => l := l + if m[l] != 0xff then 1 + m[l] else 3 + U16(m[l..], 1);
      }
    }

    /** The tracing walker's step over one parameter: it moves the cursors and stores nothing. */
    method TraceItem(ghost items: Items, ghost end: seq<Op>)
      requires WellFormed(items) && items != Nil && p <= |par| && par[p..] == Flatten(items) + end
      requires l <= m.Length && ToRead(items).Parsed?
      modifies this`l, this`p
      ensures p < |par| && par[p + 1..] == Flatten(items.tail) + end
      ensures WellFormed(items.tail)
      ensures l <= m.Length && ToRead(items.tail).Parsed?
      ensures ToRead(items.tail).rest == old(ToRead(items)).rest
      decreases items, 1
    {
      ghost var after := Flatten(items.tail) + end;
      ghost var s := m[l..];
      Ahead(items, end);
      match par[p] {
        case Item(k, c) =>
          TraceScalar(k);
        case Meta(c) =>
          if m[l] == 0 {
            l := l + 1;
            assert m[l..] == s[1..];
            JumpGroup(items.members, after);
          } else {
            l := if m[l] == 0xff then l + 3 else l + 1;
            assert m[l..] == s[PrefixSize(s)..];
            p := p + 1;
            ProtocolMessage2Pars(items.members, after);
          }
          Behind(after);
      }
    }

    /** The tracing walker: it ends on the same entry and at the same byte as Message2Pars. */
    method ProtocolMessage2Pars(ghost items: Items, ghost rest: seq<Op>)
      requires WellFormed(items) && p <= |par| && par[p..] == Flatten(items) + ([Op.End] + rest)
      requires l <= m.Length && ToRead(items).Parsed?
      modifies this`l, this`p
      ensures p <= |par| && par[p..] == [Op.End] + rest
      ensures l <= m.Length && m[l..] == old(ToRead(items)).rest
      decreases items, 2
    {
      ghost var todo, end := items, [Op.End] + rest;
      AtEnd(todo, rest);
      while par[p] != Op.End
        invariant todo == items || todo < items
        invariant p < |par| && (par[p] == Op.End <==> todo == Nil)
        invariant WellFormed(todo) && p <= |par| && par[p..] == Flatten(todo) + end
        invariant l <= m.Length && ToRead(todo).Parsed? && ToRead(todo).rest == old(ToRead(items)).rest
        decreases |par| - p
      {
        TraceItem(todo, end);
        p := p + 1;
        todo := todo.tail;
        AtEnd(todo, rest);
      }
    }

    // ----- whole messages -----

    method CapiCmsgHeader(applId: word, command: byte, subcommand: byte, messagenumber: word, controller: dword)
      modifies this
      ensures Header() == Messages.Header(applId, command, subcommand, messagenumber)
      ensures fields == CLEARED.Set(0x03, D(controller))
    {
      fields := CLEARED;
      l, p := 0, 0;
      this.applId := applId;
      this.command := command;
      this.subcommand := subcommand;
      this.messagenumber := messagenumber;
      fields := fields.Set(0x03, D(controller));
    }

    method CapiCmsgAnswer()
      modifies this`subcommand
      ensures Header() == old(Header()).Answer()
    {
      if subcommand % 2 == 0 { subcommand := subcommand + 1; }
    }

    /** Point the cursors at the first parameter of the message in, or going into, msg. */
    method Start(msg: array<byte>, ghost items: Items)
      requires Layout(command, subcommand) == Some(items) && HEADER <= msg.Length
      modifies this`m, this`l, this`p, this`par
      ensures m == msg && l == HEADER && p == 0
      ensures WellFormed(items) && par[p..] == Flatten(items) + ([Op.End] + [Op.End])
    {
      m := msg;
      l := HEADER;
      p := 0;
      par := Program(command, subcommand);
      TableSound(command, subcommand);
      ProgramParses(command, subcommand);
      assert par[p..] == par;
    }

    method PutHeader()
      requires HEADER <= l <= m.Length
      modifies m
      ensures m[..l] == HeaderBytes(l, Header()) + old(m[HEADER..l])
    {
      ghost var w := m[HEADER..l];
      var head := HeaderBytes(l, Header());
      forall i | 0 <= i < HEADER { m[i] := head[i]; }
      assert m[..l] == head + w;
    }

    /** Write the message into msg.  It is the message that stands for the header and the fields; the bytes
        behind it in msg are left over. */
    method CapiCmsg2Message(msg: array<byte>, ghost items: Items)
      requires Layout(command, subcommand) == Some(items) && Valid(Collect(items, fields))
      requires HEADER + Extent(Collect(items, fields)) <= msg.Length
      modifies this`m, this`l, this`p, this`par, msg
      ensures l <= msg.Length && msg[..l] == Message(Header(), Collect(items, fields))
    {
      Start(msg, items);
      Pars2Message(items, [Op.End]);
      ghost var w := Written(Collect(items, fields));
      assert msg[HEADER..l] == w by { assert msg[..l][HEADER..] == w; }
      PutHeader();
    }

    /** Read the message in msg. */
    method CapiMessage2Cmsg(msg: array<byte>, ghost items: Items)
      requires Read(msg[..]).Reading? && Layout(msg[4], msg[5]) == Some(items)
      modifies this
      ensures var r := Read(msg[..]);
        Header() == r.header && fields == r.fields && m == msg && l % WORDS == r.len
    {
      ghost var s := msg[..];
      ghost var body := s[HEADER..];
      fields := CLEARED;
      command, subcommand := msg[4], msg[5];
      Start(msg, items);
      assert m[l..] == body;
      Message2Pars(items, [Op.End]);
      assert fields == Read(s).fields;
      var low := U16(msg[..], 0);
      l := WithLowWord(l, low);
      applId := U16(msg[..], 2);
      messagenumber := U16(msg[..], 6);
    }
  }
}
