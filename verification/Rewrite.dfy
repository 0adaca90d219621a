/** The message rewrite built on the codec (scripts/wechat/wechat_wire_inject.py, `rewrite_message`). */
module Rewrite {
  import opened Wrappers
  import opened Bytes
  import opened Protobuf
  import Patterns

  /** What is written into the armed entry, and strict UTF-8 decoding. */
  datatype Order = Order(
    sentinel: seq<byte>, recipient: seq<byte>, messageType: nat, content: seq<byte>, utf8: seq<byte> -> Option<string>)

  datatype Kind = Recipient | Content | Type | Target(sentinel: seq<byte>)

  predicate Is(kind: Kind, f: Field) {
    match kind
    case Recipient => f.Data? && f.number == 1
    case Content => f.Data? && f.number == 2
    case Type => f.Number? && f.number == 3
    case Target(sentinel) => f.Data? && f.number == 2 && Patterns.Contains(f.data, sentinel)
  }

  function Count(fields: seq<Field>, kind: Kind): nat {
    if fields == [] then 0
    else Count(fields[..|fields| - 1], kind) + (if Is(kind, fields[|fields| - 1]) then 1 else 0)
  }

  /** Where the last field of a kind is. */
  function Last(fields: seq<Field>, kind: Kind): (i: Option<nat>)
    ensures i.Some? ==> i.value < |fields| && Is(kind, fields[i.value])
    ensures i.None? <==> Count(fields, kind) == 0
  {
    if fields == [] then None
    else if Is(kind, fields[|fields| - 1]) then Some(|fields| - 1)
    else Last(fields[..|fields| - 1], kind)
  }

  // ----- the recipient ---------------------------------------------------------------------

  /** The one recipient string replaced, and what it was. */
  function BaseReplaced(value: seq<byte>, order: Order): Option<(seq<byte>, string)> {
    var fields := Parse(value);
    if fields.None? || Count(fields.value, Recipient) != 1 then None
    else
      var i := Last(fields.value, Recipient).value;
      var original := order.utf8(fields.value[i].data);
      if original.None? then None else Some((Encode(fields.value[i := Data(1, order.recipient)]), original.value))
  }

  /** `_replace_base_string`; `None` is an exception. */
  method ReplaceBaseString(value: seq<byte>, order: Order) returns (r: Option<(seq<byte>, string)>)
    ensures r == BaseReplaced(value, order)
  {
    hide Parse, Encode;
    var parsed := Fields(value);
    if parsed.None? { return None; }
    var children := parsed.value;
    var fields: seq<Field> := [];
    var original: Option<string> := None;
    for k := 0 to |children|
      invariant original.None? ==> fields == children[..k] && Count(children[..k], Recipient) == 0
      invariant original.Some? ==>
        && Count(children[..k], Recipient) == 1
        && var i := Last(children[..k], Recipient).value;
           original == order.utf8(children[i].data) && fields == children[..k][i := Data(1, order.recipient)]
    {
      var child := children[k];
      assert children[..k + 1][..k] == children[..k];
      ghost var before := children[..k];
      if child.Data? && child.number == 1 {
        if original.Some? {
          CountGrows(children, k + 1, Recipient);
          return None;
        }
        original := order.utf8(child.data);
        if original.None? {
          DecodeFails(children, k, order);
          return None;
        }
        fields := fields + [Data(1, order.recipient)];
        assert fields == children[..k + 1][k := Data(1, order.recipient)];
      } else {
        fields := fields + [child];
      }
    }
    assert children[..|children|] == children;
    if original.None? { return None; }
    var bytes := EncodeFields(fields);
    return Some((bytes, original.value));
  }

  /** A count never falls along a list. */
  lemma {:induction false} CountGrows(fields: seq<Field>, k: nat, kind: Kind)
    requires k <= |fields|
    ensures Count(fields[..k], kind) <= Count(fields, kind)
  {
    if k < |fields| {
      CountGrows(fields[..|fields| - 1], k, kind);
      assert fields[..|fields| - 1][..k] == fields[..k];
    } else {
      assert fields[..k] == fields;
    }
  }

  /** The only field of a kind is the one that was found first. */
  lemma {:induction false} OnlyOne(fields: seq<Field>, k: nat, kind: Kind)
    requires k < |fields| && Is(kind, fields[k]) && Count(fields, kind) == 1
    ensures Last(fields, kind) == Some(k)
  {
    var n := |fields| - 1;
    if k < n {
      CountGrows(fields[..n], k + 1, kind);
      assert fields[..n][..k + 1][k] == fields[k];
      OnlyOne(fields[..n], k, kind);
    } else {
      assert Last(fields, kind) == Some(n);
    }
  }

  lemma DecodeFails(children: seq<Field>, k: nat, order: Order)
    requires k < |children| && Is(Recipient, children[k]) && order.utf8(children[k].data) == None
    ensures Count(children, Recipient) == 1 ==> order.utf8(children[Last(children, Recipient).value].data) == None
  {
    if Count(children, Recipient) == 1 { OnlyOne(children, k, Recipient); }
  }

  // ----- the entry -------------------------------------------------------------------------

  function RewrittenChild(f: Field, order: Order): Option<Field> {
    if Is(Recipient, f) then
      var base := BaseReplaced(f.data, order);
      if base.None? || order.utf8(order.recipient).None? then None else Some(Data(1, base.value.0))
    else if Is(Content, f) then Some(Data(2, order.content))
    else if Is(Type, f) then Some(Number(3, order.messageType))
    else Some(f)
  }

  function RewrittenChildren(fields: seq<Field>, order: Order): (r: Option<seq<Field>>)
    ensures r.Some? ==> |r.value| == |fields| && forall j :: 0 <= j < |fields| ==>
      RewrittenChild(fields[j], order) == Some(r.value[j])
    ensures r.None? <==> exists j :: 0 <= j < |fields| && RewrittenChild(fields[j], order).None?
  {
    if fields == [] then Some([])
    else
      var n := |fields| - 1;
      var head := RewrittenChildren(fields[..n], order);
      var last := RewrittenChild(fields[n], order);
      if head.None? then
        assert exists j :: 0 <= j < |fields[..n]| && RewrittenChild(fields[..n][j], order).None?;
        None
      else if last.None? then None
      else Some(head.value + [last.value])
  }

  /** The entry with its recipient, content and type swapped, and the recipient it had. */
  function EntryRewritten(value: seq<byte>, order: Order): Option<(seq<byte>, string)> {
    var fields := Parse(value);
    if fields.None? then None
    else
      var inner := RewrittenChildren(fields.value, order);
      if inner.None? || Count(fields.value, Recipient) == 0 || Count(fields.value, Content) != 1
        || Count(fields.value, Type) != 1
      then None
      else
        var i := Last(fields.value, Recipient).value;
        var base := BaseReplaced(fields.value[i].data, order);
        if base.None? then None else Some((Encode(inner.value), base.value.1))
  }

  /** What the first `k` children have become, and what was seen among them. */
  ghost predicate ChildrenSoFar(
    children: seq<Field>, k: nat, order: Order, inner: seq<Field>, original: Option<string>, content: bool, kind: bool)
    requires k <= |children|
  {
    && RewrittenChildren(children[..k], order) == Some(inner)
    && Count(children[..k], Content) == (if content then 1 else 0)
    && Count(children[..k], Type) == (if kind then 1 else 0)
    && (original.None? <==> Count(children[..k], Recipient) == 0)
    && (original.Some? ==>
          var base := BaseReplaced(children[Last(children[..k], Recipient).value].data, order);
          base.Some? && original == Some(base.value.1))
  }

  lemma NoChildYet(children: seq<Field>, order: Order)
    ensures ChildrenSoFar(children, 0, order, [], None, false, false)
  {
  }

  lemma OneMoreChild(children: seq<Field>, k: nat, order: Order, kind: Kind)
    requires k < |children|
    ensures Count(children[..k + 1], kind) == Count(children[..k], kind) + (if Is(kind, children[k]) then 1 else 0)
    ensures Last(children[..k + 1], kind) == if Is(kind, children[k]) then Some(k) else Last(children[..k], kind)
    ensures RewrittenChildren(children[..k], order).Some? && RewrittenChild(children[k], order).Some? ==>
      RewrittenChildren(children[..k + 1], order) ==
        Some(RewrittenChildren(children[..k], order).value + [RewrittenChild(children[k], order).value])
  {
    hide RewrittenChild;
    assert children[..k + 1][..k] == children[..k];
  }

  /** A child that is rewritten, and not the second of its kind where there may be one only. */
  lemma ChildRewritten(
    children: seq<Field>, k: nat, order: Order, inner: seq<Field>, original: Option<string>, content: bool, kind: bool)
    requires k < |children| && ChildrenSoFar(children, k, order, inner, original, content, kind)
    requires RewrittenChild(children[k], order).Some?
    requires !(content && Is(Content, children[k])) && !(kind && Is(Type, children[k]))
    ensures ChildrenSoFar(
      children, k + 1, order, inner + [RewrittenChild(children[k], order).value],
      if Is(Recipient, children[k]) then Some(BaseReplaced(children[k].data, order).value.1) else original,
      content || Is(Content, children[k]), kind || Is(Type, children[k]))
  {
    assert Is(Recipient, children[k]) ==> BaseReplaced(children[k].data, order).Some?;
    hide BaseReplaced, RewrittenChild, RewrittenChildren, Count, Last;
    OneMoreChild(children, k, order, Recipient);
    OneMoreChild(children, k, order, Content);
    OneMoreChild(children, k, order, Type);
  }

  /** A child that cannot be rewritten, or is the second of its kind, is an exception whatever follows. */
  lemma ChildRefused(
    value: seq<byte>, children: seq<Field>, k: nat, order: Order, inner: seq<Field>, original: Option<string>,
    content: bool, kind: bool)
    requires Parse(value) == Some(children) && k < |children|
    requires ChildrenSoFar(children, k, order, inner, original, content, kind)
    requires RewrittenChild(children[k], order).None?
      || (content && Is(Content, children[k])) || (kind && Is(Type, children[k]))
    ensures EntryRewritten(value, order) == None
  {
    hide Parse, Encode, BaseReplaced, RewrittenChild, Last;
    OneMoreChild(children, k, order, Content);
    OneMoreChild(children, k, order, Type);
    hide Count;
    CountGrows(children, k + 1, Content);
    CountGrows(children, k + 1, Type);
    if RewrittenChild(children[k], order).None? { assert RewrittenChildren(children, order).None?; }
  }

  lemma AllChildren(
    value: seq<byte>, children: seq<Field>, order: Order, inner: seq<Field>, original: Option<string>,
    content: bool, kind: bool)
    requires Parse(value) == Some(children)
    requires ChildrenSoFar(children, |children|, order, inner, original, content, kind)
    ensures EntryRewritten(value, order) ==
      if original.None? || !content || !kind then None else Some((Encode(inner), original.value))
  {
    hide Parse, Encode, BaseReplaced, Count, Last, RewrittenChildren;
    assert children[..|children|] == children;
  }

  /** One child: its recipient string, content or type is replaced; `original` is the recipient it had. */
  method RewriteChild(child: Field, order: Order) returns (replaced: Option<Field>, original: Option<string>)
    ensures replaced == RewrittenChild(child, order)
    ensures original == if Is(Recipient, child) && replaced.Some? then Some(BaseReplaced(child.data, order).value.1)
      else None
  {
    replaced, original := Some(child), None;
    if child.Data? && child.number == 1 {
      var base := ReplaceBaseString(child.data, order);
      hide BaseReplaced;
      if base.None? || order.utf8(order.recipient).None? { return None, None; }
      replaced, original := Some(Data(1, base.value.0)), Some(base.value.1);
    } else if child.Data? && child.number == 2 {
      replaced := Some(Data(2, order.content));
    } else if child.Number? && child.number == 3 {
      replaced := Some(Number(3, order.messageType));
    }
  }

  /** The loop over the children of the armed entry. */
  method RewriteEntry(value: seq<byte>, order: Order) returns (r: Option<(seq<byte>, string)>)
    ensures r == EntryRewritten(value, order)
  {
    var parsed := Fields(value);
    if parsed.None? { return None; }
    hide Parse, Encode, BaseReplaced, Count, Last, RewrittenChild, RewrittenChildren, ChildrenSoFar, EntryRewritten;
    var children := parsed.value;
    var inner: seq<Field> := [];
    var original: Option<string> := None;
    var sawContent, sawType := false, false;
    NoChildYet(children, order);
    for k := 0 to |children|
      invariant ChildrenSoFar(children, k, order, inner, original, sawContent, sawType)
    {
      var isContent := children[k].Data? && children[k].number == 2;
      var isType := children[k].Number? && children[k].number == 3;
      var replaced, base := RewriteChild(children[k], order);
      if replaced.None? || (isContent && sawContent) || (isType && sawType) {
        ChildRefused(value, children, k, order, inner, original, sawContent, sawType);
        return None;
      }
      ChildRewritten(children, k, order, inner, original, sawContent, sawType);
      inner := inner + [replaced.value];
      if base.Some? { original := base; }
      sawContent, sawType := sawContent || isContent, sawType || isType;
    }
    AllChildren(value, children, order, inner, original, sawContent, sawType);
    if original.None? || !sawContent || !sawType { return None; }
    var bytes := EncodeFields(inner);
    return Some((bytes, original.value));
  }

  // ----- the message -----------------------------------------------------------------------

  datatype Outcome = NoMatch | Raised | Rewritten(bytes: seq<byte>, original: string, final: string)

  function MessageRewritten(raw: seq<byte>, order: Order): Outcome {
    var outer := Parse(raw);
    if outer.None? then Raised
    else
      var target := Target(order.sentinel);
      if Count(outer.value, target) == 0 then NoMatch
      else if Count(outer.value, target) > 1 then Raised
      else
        var i := Last(outer.value, target).value;
        var entry := EntryRewritten(outer.value[i].data, order);
        if entry.None? || order.utf8(order.recipient).None? then Raised
        else Rewritten(Encode(outer.value[i := Data(2, entry.value.0)]), entry.value.1,
          order.utf8(order.recipient).value)
  }

  /** What the first `k` outer fields have become. */
  ghost predicate SoFar(
    outer: seq<Field>, k: nat, order: Order, rewritten: seq<Field>, entry: Option<(seq<byte>, string)>)
    requires k <= |outer|
  {
    var target := Target(order.sentinel);
    if entry.None? then rewritten == outer[..k] && Count(outer[..k], target) == 0
    else
      && Count(outer[..k], target) == 1
      && var i := Last(outer[..k], target).value;
      entry == EntryRewritten(outer[i].data, order) && rewritten == outer[..k][i := Data(2, entry.value.0)]
  }

  lemma PassOver(outer: seq<Field>, k: nat, order: Order, rewritten: seq<Field>, entry: Option<(seq<byte>, string)>)
    requires k < |outer| && SoFar(outer, k, order, rewritten, entry) && !Is(Target(order.sentinel), outer[k])
    ensures SoFar(outer, k + 1, order, rewritten + [outer[k]], entry)
  {
    hide EntryRewritten;
    assert outer[..k + 1][..k] == outer[..k] && outer[..k + 1] == outer[..k] + [outer[k]];
  }

  lemma Armed(outer: seq<Field>, k: nat, order: Order, rewritten: seq<Field>, entry: Option<(seq<byte>, string)>)
    requires k < |outer| && SoFar(outer, k, order, rewritten, None) && Is(Target(order.sentinel), outer[k])
    requires entry.Some? && entry == EntryRewritten(outer[k].data, order)
    ensures SoFar(outer, k + 1, order, rewritten + [Data(2, entry.value.0)], entry)
  {
    hide EntryRewritten;
    assert outer[..k + 1][..k] == outer[..k];
    assert rewritten + [Data(2, entry.value.0)] == outer[..k + 1][k := Data(2, entry.value.0)];
  }

  /** A second match, or an entry that cannot be rewritten, is an exception whatever follows. */
  lemma Refused(raw: seq<byte>, outer: seq<Field>, k: nat, order: Order, rewritten: seq<Field>,
                entry: Option<(seq<byte>, string)>)
    requires Parse(raw) == Some(outer) && k < |outer| && SoFar(outer, k, order, rewritten, entry)
    requires Is(Target(order.sentinel), outer[k]) && (entry.Some? || EntryRewritten(outer[k].data, order).None?)
    ensures MessageRewritten(raw, order) == Raised
  {
    hide Parse, EntryRewritten, Encode;
    var target := Target(order.sentinel);
    assert outer[..k + 1][..k] == outer[..k];
    CountGrows(outer, k + 1, target);
    if entry.None? && Count(outer, target) == 1 { OnlyOne(outer, k, target); }
  }

  lemma AllFields(
    raw: seq<byte>, outer: seq<Field>, order: Order, rewritten: seq<Field>, entry: Option<(seq<byte>, string)>)
    requires Parse(raw) == Some(outer) && SoFar(outer, |outer|, order, rewritten, entry)
    ensures entry.Some? ==> order.utf8(order.recipient).Some?
    ensures MessageRewritten(raw, order) ==
      if entry.None? then NoMatch
      else Rewritten(Encode(rewritten), entry.value.1, order.utf8(order.recipient).value)
  {
    hide Parse, Encode, EntryRewritten, Count;
    assert outer[..|outer|] == outer;
    if entry.Some? { EntryDecodes(outer[Last(outer, Target(order.sentinel)).value].data, order); }
  }

  /** `rewrite_message` */
  method RewriteMessage(raw: seq<byte>, order: Order) returns (r: Outcome)
    ensures r == MessageRewritten(raw, order)
  {
    var parsed := Fields(raw);
    if parsed.None? { return Raised; }
    hide Parse, Encode, EntryRewritten, Patterns.Contains, Count, Last, SoFar, MessageRewritten;
    var outer := parsed.value;
    var rewritten: seq<Field> := [];
    var entry: Option<(seq<byte>, string)> := None;
    NothingYet(outer, order);
    for k := 0 to |outer|
      invariant SoFar(outer, k, order, rewritten, entry)
    {
      var f := outer[k];
      if !f.Data? || f.number != 2 || !Patterns.Contains(f.data, order.sentinel) {
        PassOver(outer, k, order, rewritten, entry);
        rewritten := rewritten + [f];
      } else {
        if entry.Some? {
          Refused(raw, outer, k, order, rewritten, entry);
          return Raised;
        }
        var armed := RewriteEntry(f.data, order);
        if armed.None? {
          Refused(raw, outer, k, order, rewritten, entry);
          return Raised;
        }
        Armed(outer, k, order, rewritten, armed);
        rewritten, entry := rewritten + [Data(2, armed.value.0)], armed;
      }
    }
    AllFields(raw, outer, order, rewritten, entry);
    if entry.None? { return NoMatch; }
    var bytes := EncodeFields(rewritten);
    return Rewritten(bytes, entry.value.1, order.utf8(order.recipient).value);
  }

  lemma NothingYet(outer: seq<Field>, order: Order)
    ensures SoFar(outer, 0, order, [], None)
  {
  }

  lemma EntryDecodes(value: seq<byte>, order: Order)
    requires EntryRewritten(value, order).Some?
    ensures order.utf8(order.recipient).Some?
  {
    hide Encode, BaseReplaced;
    var fields := Parse(value).value;
    var i := Last(fields, Recipient).value;
    assert RewrittenChild(fields[i], order).Some?;
  }

  // ----- what the rewrite changes ----------------------------------------------------------

  /** For parsable input there is no result exactly when no entry holds the sentinel. */
  lemma NoMatchMeans(raw: seq<byte>, order: Order)
    requires Parse(raw).Some?
    ensures MessageRewritten(raw, order).NoMatch? <==> forall f :: f in Parse(raw).value ==>
      !(f.Data? && f.number == 2 && Patterns.Contains(f.data, order.sentinel))
  {
    hide Parse;
    CountZero(Parse(raw).value, Target(order.sentinel));
  }

  lemma {:induction false} CountZero(fields: seq<Field>, kind: Kind)
    ensures Count(fields, kind) == 0 <==> forall f :: f in fields ==> !Is(kind, f)
  {
    if fields != [] {
      var n := |fields| - 1;
      CountZero(fields[..n], kind);
      assert fields == fields[..n] + [fields[n]];
    }
  }

  /** A length-delimited field of this number. */
  predicate DataOf(f: Field, number: nat) { f.Data? && f.number == number }

  /** A varint field of this number. */
  predicate NumberOf(f: Field, number: nat) { f.Number? && f.number == number }

  /** What each kind of field is on the wire. */
  predicate OnTheWire(kind: Kind, f: Field) {
    match kind
    case Recipient => DataOf(f, 1)
    case Content => DataOf(f, 2)
    case Type => NumberOf(f, 3)
    case Target(sentinel) => DataOf(f, 2) && Patterns.Contains(f.data, sentinel)
  }

  /** The one field of a kind, and where it is. */
  predicate OnlyAt(fields: seq<Field>, kind: Kind, i: nat) {
    && i < |fields| && OnTheWire(kind, fields[i])
    && forall j :: 0 <= j < |fields| && j != i ==> !OnTheWire(kind, fields[j])
  }

  lemma OnlyAtMeans(fields: seq<Field>, kind: Kind)
    ensures Count(fields, kind) == 1 ==> Last(fields, kind).Some? && OnlyAt(fields, kind, Last(fields, kind).value)
    ensures forall i: nat :: OnlyAt(fields, kind, i) ==> Count(fields, kind) == 1 && Last(fields, kind) == Some(i)
  {
    hide Count, Last;
    if Count(fields, kind) == 1 {
      var i := Last(fields, kind).value;
      forall j | 0 <= j < |fields| && j != i ensures !OnTheWire(kind, fields[j]) {
        if OnTheWire(kind, fields[j]) { OnlyOne(fields, j, kind); }
      }
    }
    forall i: nat | OnlyAt(fields, kind, i) ensures Count(fields, kind) == 1 && Last(fields, kind) == Some(i) {
      OneIsCounted(fields, kind, i);
    }
  }

  lemma {:induction false} OneIsCounted(fields: seq<Field>, kind: Kind, i: nat)
    requires OnlyAt(fields, kind, i)
    ensures Count(fields, kind) == 1 && Last(fields, kind) == Some(i)
  {
    var n := |fields| - 1;
    if i < n {
      assert forall j :: 0 <= j < n ==> fields[..n][j] == fields[j];
      OneIsCounted(fields[..n], kind, i);
    } else {
      CountZero(fields[..n], kind);
      forall f | f in fields[..n] ensures !Is(kind, f) {
        var j :| 0 <= j < n && fields[j] == f;
        assert !OnTheWire(kind, fields[j]);
      }
    }
  }

  lemma CountsNone(fields: seq<Field>, kind: Kind)
    ensures Count(fields, kind) == 0 <==> forall i :: 0 <= i < |fields| ==> !OnTheWire(kind, fields[i])
  {
    CountZero(fields, kind);
    hide Count;
    if forall i :: 0 <= i < |fields| ==> !OnTheWire(kind, fields[i]) {
      forall f | f in fields ensures !Is(kind, f) {
        var j :| 0 <= j < |fields| && fields[j] == f;
        assert !OnTheWire(kind, fields[j]);
      }
    } else {
      var i :| 0 <= i < |fields| && OnTheWire(kind, fields[i]);
      assert fields[i] in fields && Is(kind, fields[i]);
    }
  }

  /** A rewritten child: same number and wire type; a recipient differs in its one string only, the content and the
      type are the ordered ones, and any other child is as it was. */
  ghost predicate ChildSwapped(before: Field, after: Field, order: Order) {
    if DataOf(before, 1) then
      && Parse(before.data).Some? && DataOf(after, 1)
      && var fields := Parse(before.data).value;
         exists i: nat :: OnlyAt(fields, Recipient, i)
           && (|order.recipient| < LIMIT ==> Parse(after.data) == Some(fields[i := Data(1, order.recipient)]))
    else if DataOf(before, 2) then after == Data(2, order.content)
    else if NumberOf(before, 3) then after == Number(3, order.messageType)
    else after == before
  }

  lemma ChildIsSwapped(before: Field, order: Order)
    requires RewrittenChild(before, order).Some?
    ensures ChildSwapped(before, RewrittenChild(before, order).value, order)
  {
    hide Parse, Encode;
    if Is(Recipient, before) {
      var fields := Parse(before.data).value;
      Swapped(before.data, Last(fields, Recipient).value, Data(1, order.recipient));
      OnlyAtMeans(fields, Recipient);
      hide Count, Last, OnlyAt;
      assert OnlyAt(fields, Recipient, Last(fields, Recipient).value);
    }
  }

  /** Replacing one field of a parsed message by one that fits gives a message that reads back. */
  lemma Swapped(data: seq<byte>, i: nat, f: Field)
    requires Parse(data).Some? && i < |Parse(data).value|
    ensures var fields := Parse(data).value[i := f];
      Parse(Encode(fields)) == (if Fits(f) then Some(fields) else None)
  {
    hide Parse, Encode, Fits;
    Reencoded(data);
    var fields := Parse(data).value[i := f];
    RoundTrip(fields);
    assert AllFit(fields) <==> Fits(f) by {
      assert fields[i] == f;
    }
  }

  /** Decoding a result gives the original outer fields in order except the one entry that held the
      sentinel, whose children differ only in the recipient string, the content and the type. */
  lemma RewriteIsExact(raw: seq<byte>, order: Order)
    requires MessageRewritten(raw, order).Rewritten?
    ensures Parse(raw).Some? && Count(Parse(raw).value, Target(order.sentinel)) == 1
    ensures var outer := Parse(raw).value;
      var i := Last(outer, Target(order.sentinel)).value;
      && Parse(outer[i].data).Some?
      && EntryRewritten(outer[i].data, order).Some?
      && var entry := EntryRewritten(outer[i].data, order).value.0;
         && (|entry| < LIMIT <==> Parse(MessageRewritten(raw, order).bytes) == Some(outer[i := Data(2, entry)]))
         && var children := Parse(outer[i].data).value;
            && RewrittenChildren(children, order).Some?
            && var inner := RewrittenChildren(children, order).value;
               && |inner| == |children|
               && (forall j :: 0 <= j < |children| ==> ChildSwapped(children[j], inner[j], order))
               && (AllFit(inner) <==> Parse(entry) == Some(inner))
  {
    hide Parse, Encode, RewrittenChild, ChildSwapped;
    var outer := Parse(raw).value;
    var i := Last(outer, Target(order.sentinel)).value;
    var entry := EntryRewritten(outer[i].data, order).value.0;
    Swapped(raw, i, Data(2, entry));
    var inner := RewrittenChildren(Parse(outer[i].data).value, order).value;
    RoundTrip(inner);
    forall j | 0 <= j < |inner| ensures ChildSwapped(Parse(outer[i].data).value[j], inner[j], order) {
      ChildIsSwapped(Parse(outer[i].data).value[j], order);
    }
  }

  // ----- when there is a result ------------------------------------------------------------

  /** The one string that a recipient holds, decoded. */
  ghost predicate Names(data: seq<byte>, order: Order, name: string) {
    && Parse(data).Some?
    && exists i: nat :: OnlyAt(Parse(data).value, Recipient, i) && order.utf8(Parse(data).value[i].data) == Some(name)
  }

  lemma NamesMeans(data: seq<byte>, order: Order)
    ensures BaseReplaced(data, order).Some? ==> Names(data, order, BaseReplaced(data, order).value.1)
    ensures forall name :: Names(data, order, name) ==>
      BaseReplaced(data, order).Some? && BaseReplaced(data, order).value.1 == name
  {
    hide Parse, Encode;
    if Parse(data).Some? {
      var fields := Parse(data).value;
      OnlyAtMeans(fields, Recipient);
      hide Count, Last, OnlyAt;
      if BaseReplaced(data, order).Some? { assert OnlyAt(fields, Recipient, Last(fields, Recipient).value); }
      forall name | Names(data, order, name)
        ensures BaseReplaced(data, order).Some? && BaseReplaced(data, order).value.1 == name
      {
        var i: nat :| OnlyAt(fields, Recipient, i) && order.utf8(fields[i].data) == Some(name);
      }
    }
  }

  /** A recipient among the children, or something else. */
  ghost predicate Readable(child: Field, order: Order) {
    DataOf(child, 1) ==> exists name :: Names(child.data, order, name)
  }

  lemma ReadableMeans(child: Field, order: Order)
    requires order.utf8(order.recipient).Some?
    ensures RewrittenChild(child, order).Some? <==> Readable(child, order)
  {
    if DataOf(child, 1) { NamesMeans(child.data, order); }
    hide BaseReplaced, Names;
  }

  /** An entry that can be rewritten: one content, one type, at least one recipient, and every recipient with one
      decodable string. */
  ghost predicate Complete(children: seq<Field>, order: Order) {
    && (exists i: nat :: OnlyAt(children, Content, i))
    && (exists i: nat :: OnlyAt(children, Type, i))
    && (exists i :: 0 <= i < |children| && OnTheWire(Recipient, children[i]))
    && (forall i :: 0 <= i < |children| ==> Readable(children[i], order))
  }

  lemma RewrittenWhen(children: seq<Field>, order: Order)
    requires order.utf8(order.recipient).Some?
    ensures RewrittenChildren(children, order).Some? <==> forall i :: 0 <= i < |children| ==>
      Readable(children[i], order)
  {
    hide Readable, RewrittenChild;
    forall i | 0 <= i < |children|
      ensures RewrittenChild(children[i], order).Some? <==> Readable(children[i], order)
    {
      ReadableMeans(children[i], order);
    }
  }

  lemma OnlyOneMeans(fields: seq<Field>, kind: Kind)
    ensures Count(fields, kind) == 1 <==> exists i: nat :: OnlyAt(fields, kind, i)
  {
    hide Count, Last, OnlyAt;
    OnlyAtMeans(fields, kind);
  }

  lemma EntryRewrittenWhen(value: seq<byte>, order: Order)
    requires order.utf8(order.recipient).Some?
    ensures EntryRewritten(value, order).Some? <==> Parse(value).Some? && Complete(Parse(value).value, order)
  {
    hide Parse, Encode;
    if Parse(value).Some? {
      var children := Parse(value).value;
      OnlyOneMeans(children, Content);
      OnlyOneMeans(children, Type);
      CountsNone(children, Recipient);
      RewrittenWhen(children, order);
      EntryNames(value, children, order);
      hide Count, Last, RewrittenChildren, BaseReplaced, Readable, OnlyAt, OnTheWire;
    }
  }

  /** The recipient that is returned is the one the entry's last recipient child named. */
  lemma EntryNames(value: seq<byte>, children: seq<Field>, order: Order)
    requires Parse(value) == Some(children)
    ensures RewrittenChildren(children, order).Some? && Count(children, Recipient) > 0 ==>
      var i := Last(children, Recipient).value;
      BaseReplaced(children[i].data, order).Some?
        && Names(children[i].data, order, BaseReplaced(children[i].data, order).value.1)
  {
    hide Parse, Encode, Names, Count, BaseReplaced;
    if RewrittenChildren(children, order).Some? && Count(children, Recipient) > 0 {
      var i := Last(children, Recipient).value;
      assert RewrittenChild(children[i], order).Some?;
      NamesMeans(children[i].data, order);
    }
  }

  /** A recipient child of the entry names this recipient. */
  ghost predicate NamedBy(value: seq<byte>, order: Order, name: string) {
    && Parse(value).Some?
    && var children := Parse(value).value;
    exists i :: 0 <= i < |children| && OnTheWire(Recipient, children[i]) && Names(children[i].data, order, name)
  }

  lemma OriginalIsNamed(value: seq<byte>, order: Order)
    requires EntryRewritten(value, order).Some?
    ensures NamedBy(value, order, EntryRewritten(value, order).value.1)
  {
    hide Parse, Encode, Names;
    var children := Parse(value).value;
    EntryNames(value, children, order);
    var i := Last(children, Recipient).value;
    assert OnTheWire(Recipient, children[i]);
  }

  /** Field `i` is the one entry that holds the sentinel. */
  ghost predicate ArmedAt(raw: seq<byte>, order: Order, i: nat) {
    Parse(raw).Some? && OnlyAt(Parse(raw).value, Target(order.sentinel), i)
  }

  /** The content of a field of a message. */
  function FieldData(raw: seq<byte>, i: nat): seq<byte> {
    if Parse(raw).Some? && i < |Parse(raw).value| && Parse(raw).value[i].Data? then Parse(raw).value[i].data else []
  }

  ghost predicate CompleteEntry(value: seq<byte>, order: Order) {
    Parse(value).Some? && Complete(Parse(value).value, order)
  }

  ghost predicate ArmedEntryNames(raw: seq<byte>, order: Order, i: nat, name: string) {
    ArmedAt(raw, order, i) && NamedBy(FieldData(raw, i), order, name)
  }

  /**
   * There is a result if and only if exactly one field-2 entry holds the sentinel, that entry has one content, one
   * type and readable recipients, and the ordered recipient can be decoded.  The result names the recipient the
   * entry had and the ordered one.
   */
  lemma RewritesWhen(raw: seq<byte>, order: Order)
    ensures MessageRewritten(raw, order).Rewritten? <==>
      order.utf8(order.recipient).Some?
      && exists i: nat :: ArmedAt(raw, order, i) && CompleteEntry(FieldData(raw, i), order)
    ensures MessageRewritten(raw, order).Rewritten? ==>
      Some(MessageRewritten(raw, order).final) == order.utf8(order.recipient)
      && exists i: nat :: ArmedEntryNames(raw, order, i, MessageRewritten(raw, order).original)
  {
    hide Parse, Encode, EntryRewritten, Complete, NamedBy;
    if Parse(raw).Some? && order.utf8(order.recipient).Some? {
      var outer := Parse(raw).value;
      var target := Target(order.sentinel);
      OnlyAtMeans(outer, target);
      hide Count;
      if i: nat :| OnlyAt(outer, target, i) {
        assert Last(outer, target) == Some(i) && outer[i].Data?;
        hide OnlyAt;
        assert ArmedAt(raw, order, i);
        EntryRewrittenWhen(outer[i].data, order);
        if EntryRewritten(outer[i].data, order).Some? {
          OriginalIsNamed(outer[i].data, order);
          assert ArmedEntryNames(raw, order, i, EntryRewritten(outer[i].data, order).value.1);
        }
      }
    }
  }
}
