/**
 Reading and writing protobuf messages (scripts/wechat/wechat_wire_inject.py), after the sections
 "Base 128 Varints" and "Message Structure" of the Protocol Buffers Encoding specification.
 Only wire types 0 and 2 exist here, as in the script.
 */
module Protobuf {
  import opened Wrappers
  import opened Bytes

  const MAX_VARINT_BYTES := 10

  function Pow128(n: nat): (p: nat)
    ensures p >= 1
  {
    if n == 0 then 1 else 128 * Pow128(n - 1)
  }

  /** 2^70, the first number that ten groups of seven bits cannot hold. */
  const LIMIT := 0x40_0000_0000_0000_0000

  lemma LimitIsTenGroups()
    ensures Pow128(MAX_VARINT_BYTES) == LIMIT
  {
    assert Pow128(4) == 0x1000_0000;
    assert Pow128(8) == 128 * 128 * 128 * 128 * Pow128(4);
  }

  // ----- varints ---------------------------------------------------------------------------

  /** The shortest encoding of a number: groups of seven bits, low ones first. */
  function Varint(v: nat): (bytes: seq<byte>)
    ensures |bytes| >= 1
  {
    if v < 128 then [v] else [v % 128 + 128] + Varint(v / 128)
  }

  method WriteVarint(value: nat) returns (output: seq<byte>)
    ensures output == Varint(value)
  {
    output := [];
    var rest := value;
    while true
      invariant output + Varint(rest) == Varint(value)
      decreases rest
    {
      var group := rest % 128;
      var next := rest / 128;
      ghost var before := output;
      output := output + [group + (if next != 0 then 128 else 0)];
      if next == 0 {
        assert rest == group;
        return;
      }
      assert before + Varint(rest) == output + Varint(next);
      rest := next;
    }
  }

  /** The number at the start of `data` and how many bytes it takes, at most `room`. */
  function ReadV(data: seq<byte>, room: nat): (r: Option<(nat, nat)>)
    ensures r.Some? ==> 1 <= r.value.1 <= |data| && r.value.1 <= room
  {
    if data == [] || room == 0 then None
    else if data[0] < 128 then Some((data[0], 1))
    else
      var rest := ReadV(data[1..], room - 1);
      if rest.None? then None else Some((data[0] - 128 + 128 * rest.value.0, rest.value.1 + 1))
  }

  /** A number whose first groups are already in `value`, below `scale`. */
  function Joined(value: nat, scale: nat, groups: nat, rest: Option<(nat, nat)>): Option<(nat, nat)> {
    if rest.None? then None else Some((value + scale * rest.value.0, groups + rest.value.1))
  }

  /** `_read_varint`.  The groups read so far are below `scale`, so joining the next one with `|` is
      adding it. */
  method ReadVarint(data: seq<byte>, offset: nat) returns (r: Option<(nat, nat)>)
    requires offset <= |data|
    ensures r == Joined(0, 1, offset, ReadV(data[offset..], MAX_VARINT_BYTES))
  {
    hide ReadV, Joined;
    var value: nat, scale: nat, at: nat, room := 0, 1, offset, MAX_VARINT_BYTES;
    while at < |data| && room > 0
      invariant offset <= at <= |data| && 0 <= room <= MAX_VARINT_BYTES
      invariant value < scale
      invariant Joined(0, 1, offset, ReadV(data[offset..], MAX_VARINT_BYTES)) ==
        Joined(value, scale, at, ReadV(data[at..], room))
    {
      var b := data[at];
      var group: nat := b % 128;
      JoinStep(value, scale, at, data, room);
      Below(value, scale, group);
      if b < 128 { return Some((value + group * scale, at + 1)); }
      value, scale, at, room := value + group * scale, scale * 128, at + 1, room - 1;
    }
    JoinEnd(value, scale, at, data, room);
    return None;
  }

  lemma JoinStep(value: nat, scale: nat, at: nat, data: seq<byte>, room: nat)
    requires at < |data| && room > 0
    ensures Joined(value, scale, at, ReadV(data[at..], room))
         == var group := data[at] % 128;
            if data[at] < 128 then Some((value + group * scale, at + 1))
            else Joined(value + group * scale, scale * 128, at + 1, ReadV(data[at + 1..], room - 1))
  {
    assert data[at..][1..] == data[at + 1..];
    var rest := ReadV(data[at + 1..], room - 1);
    if data[at] >= 128 && rest.Some? { Regroup(value, scale, data[at] - 128, rest.value.0); }
  }

  lemma JoinEnd(value: nat, scale: nat, at: nat, data: seq<byte>, room: nat)
    requires at <= |data| && (at == |data| || room == 0)
    ensures Joined(value, scale, at, ReadV(data[at..], room)) == None
  {}

  lemma Regroup(value: nat, scale: nat, group: nat, rest: nat)
    ensures value + scale * (group + 128 * rest) == (value + group * scale) + (scale * 128) * rest
  {}

  lemma Below(value: nat, scale: nat, group: nat)
    requires value < scale && group < 128
    ensures value + group * scale < scale * 128
  {
    assert group * scale <= 127 * scale;
  }

  /** A number is read back exactly if it fits the room, and not at all if it does not. */
  lemma {:induction false} VarintReadBack(v: nat, rest: seq<byte>, room: nat)
    requires room >= 1 || v >= 1
    ensures ReadV(Varint(v) + rest, room) == (if v < Pow128(room) then Some((v, |Varint(v)|)) else None)
    decreases v
  {
    var data := Varint(v) + rest;
    if v >= 128 && room > 0 {
      VarintReadBack(v / 128, rest, room - 1);
      assert data[1..] == Varint(v / 128) + rest;
      assert v < 128 * Pow128(room - 1) <==> v / 128 < Pow128(room - 1);
    } else if room > 0 {
      assert Pow128(room) == 128 * Pow128(room - 1);
    }
  }

  /** The bytes of a number are the shortest ones: a longer encoding ends in an empty group. */
  predicate Minimal(data: seq<byte>, used: nat)
    requires 1 <= used <= |data|
  {
    used == 1 || data[used - 1] != 0
  }

  /** Writing a number that was read takes no more bytes, and the same bytes exactly if they were minimal. */
  lemma {:induction false} RewrittenVarint(data: seq<byte>, room: nat)
    requires ReadV(data, room).Some?
    ensures var (v, used) := ReadV(data, room).value;
      && v < Pow128(room)
      && |Varint(v)| <= used
      && (|Varint(v)| == used <==> Minimal(data, used))
      && (Varint(v) == data[..used] <==> Minimal(data, used))
    decreases room
  {
    if data[0] >= 128 {
      var rest := data[1..];
      var (w, used) := ReadV(rest, room - 1).value;
      RewrittenVarint(rest, room - 1);
      var v := data[0] - 128 + 128 * w;
      assert rest[used - 1] == data[used];
      assert data[..used + 1] == [data[0]] + rest[..used];
      if w == 0 {
        assert Varint(w) == [0];
        assert used == 1 ==> rest[0] == 0;
      } else {
        assert v / 128 == w && v % 128 == data[0] - 128;
        assert Varint(v) == [data[0]] + Varint(w);
        assert used == 1 ==> rest[0] == w;
      }
    }
  }

  /** What groups of seven bits stand for, low ones first. */
  function GroupValue(bytes: seq<byte>): nat {
    if bytes == [] then 0 else bytes[0] % 128 + 128 * GroupValue(bytes[1..])
  }

  /** The bytes of a number: seven bits of it each, low ones first, the high bit set on all but the last, and no
      empty group at the end. */
  lemma {:induction false} VarintMeans(v: nat)
    ensures GroupValue(Varint(v)) == v
    ensures forall i :: 0 <= i < |Varint(v)| ==> (Varint(v)[i] >= 128 <==> i < |Varint(v)| - 1)
    ensures |Varint(v)| > 1 ==> Varint(v)[|Varint(v)| - 1] != 0
  {
    if v >= 128 {
      VarintMeans(v / 128);
      var rest := Varint(v / 128);
      assert Varint(v)[1..] == rest;
      assert forall i :: 1 <= i < |Varint(v)| ==> Varint(v)[i] == rest[i - 1];
    }
  }

  // ----- fields ----------------------------------------------------------------------------

  datatype Field =
    | Number(number: nat, value: nat)        // wire type 0
    | Data(number: nat, data: seq<byte>)     // wire type 2

  function Tag(f: Field): nat { f.number * 8 + (if f.Number? then 0 else 2) }

  function EncodeField(f: Field): (bytes: seq<byte>)
    ensures |bytes| >= 1
  {
    Varint(Tag(f)) + (match f case Number(_, value) => Varint(value) case Data(_, data) => Varint(|data|) + data)
  }

  function Encode(fields: seq<Field>): seq<byte> {
    if fields == [] then [] else EncodeField(fields[0]) + Encode(fields[1..])
  }

  method WriteField(f: Field) returns (output: seq<byte>)
    ensures output == EncodeField(f)
  {
    output := WriteVarint(Tag(f));
    match f {
      case Number(_, value) =>
        var bytes := WriteVarint(value);
        output := output + bytes;
      case Data(_, data) =>
        var length := WriteVarint(|data|);
        output := output + (length + data);
    }
  }

  /** `_encode` */
  method EncodeFields(fields: seq<Field>) returns (output: seq<byte>)
    ensures output == Encode(fields)
  {
    hide EncodeField;
    output := [];
    for i := 0 to |fields|
      invariant output + Encode(fields[i..]) == Encode(fields)
    {
      var bytes := WriteField(fields[i]);
      assert fields[i..][1..] == fields[i + 1..];
      assert output + (bytes + Encode(fields[i + 1..])) == output + bytes + Encode(fields[i + 1..]);
      output := output + bytes;
    }
  }

  /** The field at the start of `data` and its length. */
  function ParseField(data: seq<byte>): (r: Option<(Field, nat)>)
    ensures r.Some? ==> 1 <= r.value.1 <= |data|
  {
    var tag := ReadV(data, MAX_VARINT_BYTES);
    if tag.None? then None
    else
      var (t, a) := tag.value;
      var second := ReadV(data[a..], MAX_VARINT_BYTES);
      if second.None? then None
      else
        var (n, b) := second.value;
        if t % 8 == 0 then Some((Number(t / 8, n), a + b))
        else if t % 8 == 2 then
          if a + b + n > |data| then None else Some((Data(t / 8, data[a + b..a + b + n]), a + b + n))
        else None
  }

  function Parse(data: seq<byte>): Option<seq<Field>> {
    if data == [] then Some([])
    else
      var first := ParseField(data);
      if first.None? then None
      else
        var rest := Parse(data[first.value.1..]);
        if rest.None? then None else Some([first.value.0] + rest.value)
  }

  /** Fields already read, and what the rest of the message gives. */
  function Prepended(output: seq<Field>, rest: Option<seq<Field>>): Option<seq<Field>> {
    if rest.None? then None else Some(output + rest.value)
  }

  /** The field at an offset, and the offset after it. */
  method ReadField(data: seq<byte>, offset: nat) returns (r: Option<(Field, nat)>)
    requires offset < |data|
    ensures var spec := ParseField(data[offset..]);
      r == if spec.None? then None else Some((spec.value.0, offset + spec.value.1))
  {
    hide ReadV;
    ghost var here := data[offset..];
    var tag := ReadVarint(data, offset);
    if tag.None? { return None; }
    var (t, afterTag) := tag.value;
    assert here[afterTag - offset..] == data[afterTag..];
    var number, wire := t / 8, t % 8;
    if wire != 0 && wire != 2 { return None; }
    var second := ReadVarint(data, afterTag);
    if second.None? { return None; }
    var (n, afterSecond) := second.value;
    if wire == 0 { return Some((Number(number, n), afterSecond)); }
    var end := afterSecond + n;
    if end > |data| { return None; }
    assert here[afterSecond - offset..end - offset] == data[afterSecond..end];
    return Some((Data(number, data[afterSecond..end]), end));
  }

  /** `_fields`; `None` is a `ValueError`. */
  method Fields(data: seq<byte>) returns (r: Option<seq<Field>>)
    ensures r == Parse(data)
  {
    hide ParseField;
    var output: seq<Field> := [];
    var offset := 0;
    assert data[0..] == data;
    assert Parse(data).Some? ==> [] + Parse(data).value == Parse(data).value;
    while offset < |data|
      invariant offset <= |data|
      invariant Parse(data) == Prepended(output, Parse(data[offset..]))
    {
      var next := ReadField(data, offset);
      if next.None? { return None; }
      var (f, end) := next.value;
      assert data[offset..][end - offset..] == data[end..];
      ghost var rest := Parse(data[end..]);
      if rest.Some? { assert output + ([f] + rest.value) == (output + [f]) + rest.value; }
      output, offset := output + [f], end;
    }
    assert output + [] == output;
    return Some(output);
  }

  // ----- round trips -----------------------------------------------------------------------

  /** The tag, and the value or length, stay below 2^70. */
  predicate Fits(f: Field) {
    Tag(f) < LIMIT && (match f case Number(_, value) => value < LIMIT case Data(_, data) => |data| < LIMIT)
  }

  predicate AllFit(fields: seq<Field>) { forall i :: 0 <= i < |fields| ==> Fits(fields[i]) }

  lemma FieldRoundTrip(f: Field, rest: seq<byte>)
    ensures ParseField(EncodeField(f) + rest) == (if Fits(f) then Some((f, |EncodeField(f)|)) else None)
  {
    hide ReadV, Varint, Pow128;
    LimitIsTenGroups();
    var tag := Varint(Tag(f));
    var data := EncodeField(f) + rest;
    match f
    case Number(_, value) =>
      var second := Varint(value);
      assert data == tag + (second + rest);
      VarintReadBack(Tag(f), second + rest, MAX_VARINT_BYTES);
      VarintReadBack(value, rest, MAX_VARINT_BYTES);
      assert data[|tag|..] == second + rest;
    case Data(_, content) =>
      var second := Varint(|content|);
      assert data == tag + (second + (content + rest));
      VarintReadBack(Tag(f), second + (content + rest), MAX_VARINT_BYTES);
      VarintReadBack(|content|, content + rest, MAX_VARINT_BYTES);
      assert data[|tag|..] == second + (content + rest);
      assert data[|tag| + |second|..|tag| + |second| + |content|] == content;
  }

  /** `_fields(_encode(fs)) == fs` exactly for the lists that stay below 2^70; others cannot be read. */
  lemma {:induction false} RoundTrip(fields: seq<Field>)
    ensures Parse(Encode(fields)) == (if AllFit(fields) then Some(fields) else None)
  {
    hide ParseField, EncodeField, Fits;
    if fields != [] {
      var first := EncodeField(fields[0]);
      var rest := Encode(fields[1..]);
      FieldRoundTrip(fields[0], rest);
      assert (first + rest)[|first|..] == rest;
      RoundTrip(fields[1..]);
      assert AllFit(fields) <==> Fits(fields[0]) && AllFit(fields[1..]);
      assert [fields[0]] + fields[1..] == fields;
    }
  }

  /** A number of 2^70 is written and cannot be read. */
  lemma LargeNumberIsLost()
    ensures Encode([Number(1, LIMIT)]) != [] && Parse(Encode([Number(1, LIMIT)])) == None
  {
    var fields := [Number(1, LIMIT)];
    assert !Fits(fields[0]);
    RoundTrip(fields);
  }

  /** The examples of the encoding specification: 150 in field 1, and "testing" in field 2. */
  lemma SpecificationExamples()
    ensures Encode([Number(1, 150)]) == [0x08, 0x96, 0x01]
    ensures Encode([Data(2, [0x74, 0x65, 0x73, 0x74, 0x69, 0x6e, 0x67])]) ==
      [0x12, 0x07, 0x74, 0x65, 0x73, 0x74, 0x69, 0x6e, 0x67]
  {
    var number, data := Number(1, 150), Data(2, [0x74, 0x65, 0x73, 0x74, 0x69, 0x6e, 0x67]);
    assert Varint(150) == [0x96] + Varint(1) == [0x96, 0x01];
    assert EncodeField(number) == [0x08, 0x96, 0x01];
    assert EncodeField(data) == [0x12, 0x07, 0x74, 0x65, 0x73, 0x74, 0x69, 0x6e, 0x67];
    assert [number][..0] == [] && [data][..0] == [] && [number][1..] == [] && [data][1..] == [];
  }

  /** Every varint of a parsable message is minimal. */
  predicate Canonical(data: seq<byte>)
    requires Parse(data).Some?
  {
    data == [] || (CanonicalField(data) && Canonical(data[ParseField(data).value.1..]))
  }

  predicate CanonicalField(data: seq<byte>)
    requires ParseField(data).Some?
  {
    var a := ReadV(data, MAX_VARINT_BYTES).value.1;
    Minimal(data, a) && Minimal(data[a..], ReadV(data[a..], MAX_VARINT_BYTES).value.1)
  }

  lemma ReencodedField(data: seq<byte>)
    requires ParseField(data).Some?
    ensures var (f, used) := ParseField(data).value;
      && Fits(f) && |EncodeField(f)| <= used
      && (|EncodeField(f)| == used <==> CanonicalField(data))
      && (EncodeField(f) == data[..used] <==> CanonicalField(data))
  {
    hide ReadV, Varint, Pow128;
    LimitIsTenGroups();
    var (t, a) := ReadV(data, MAX_VARINT_BYTES).value;
    var (n, b) := ReadV(data[a..], MAX_VARINT_BYTES).value;
    RewrittenVarint(data, MAX_VARINT_BYTES);
    RewrittenVarint(data[a..], MAX_VARINT_BYTES);
    var (f, used) := ParseField(data).value;
    assert Tag(f) == t;
    var content := data[a + b..used];
    assert data[..used] == data[..a] + data[a..][..b] + content;
    assert EncodeField(f) == Varint(t) + Varint(n) + content;
    if |Varint(t)| == a && |Varint(n)| == b {
      assert EncodeField(f) == data[..used];
    } else {
      assert |EncodeField(f)| < used;
    }
  }

  /** Re-encoding a parsable message never makes it longer, and gives the same bytes exactly when every
      varint in it was minimal. */
  lemma {:induction false} Reencoded(data: seq<byte>)
    requires Parse(data).Some?
    ensures var fields := Parse(data).value;
      AllFit(fields) && |Encode(fields)| <= |data| && (Encode(fields) == data <==> Canonical(data))
  {
    hide ParseField, EncodeField, Fits, CanonicalField;
    if data != [] {
      var (f, used) := ParseField(data).value;
      var rest := data[used..];
      ReencodedField(data);
      Reencoded(rest);
      var fields := Parse(rest).value;
      assert ([f] + fields)[1..] == fields;
      assert data == data[..used] + rest;
      var whole := EncodeField(f) + Encode(fields);
      if whole == data && |EncodeField(f)| == used {
        assert whole[..used] == EncodeField(f) && whole[used..] == Encode(fields);
      }
    }
  }
}
