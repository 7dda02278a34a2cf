/** MMI objects on their way through a message: their strings are copied behind the object and the
    pointers become offsets into the message. */
module Mmi {
  import opened Common

  /** sizeof(en50221_mmi_object_t) and sizeof(char *), with 64-bit pointers. */
  const OBJECT_SIZE := 48
  const POINTER_SIZE := 8

  type Text = seq<Byte>

  /** A pointer to a string, before and after it is replaced by an offset. */
  datatype Ptr = To(text: Text) | At(offset: int)

  datatype TablePtr = ToTable(ptrs: seq<Ptr>) | TableAt(offset: int)

  /** Menus and lists are the same but for the type. */
  datatype Object =
    | Enq(blind: bool, text: Ptr)
    | Answ(ok: bool, answ: Ptr)
    | Menu(isList: bool, title: Ptr, subtitle: Ptr, bottom: Ptr, choices: TablePtr, count: int)
    | Other

  predicate IsText(t: Text) {
    0 !in t
  }

  predicate Plain(p: Ptr) {
    p.To? && IsText(p.text)
  }

  /** An object in memory, with pointers to strings without zero bytes. */
  predicate InMemory(o: Object) {
    match o
    case Enq(_, t) => Plain(t)
    case Answ(_, t) => Plain(t)
    case Menu(_, t, s, b, choices, count) =>
      && Plain(t) && Plain(s) && Plain(b)
      && choices.ToTable? && count == |choices.ptrs| && forall i :: 0 <= i < count ==> Plain(choices.ptrs[i])
    case Other => true
  }

  function Texts(ptrs: seq<Ptr>): (ts: seq<Text>)
    requires forall i :: 0 <= i < |ptrs| ==> ptrs[i].To?
    ensures |ts| == |ptrs| && forall i :: 0 <= i < |ts| ==> ts[i] == ptrs[i].text
  {
    if ptrs == [] then [] else Texts(ptrs[..|ptrs| - 1]) + [ptrs[|ptrs| - 1].text]
  }

  // ----- the layout -----

  /** Where strings end that are stored one behind the other. */
  function EndOf(ts: seq<Text>, start: int): int {
    if ts == [] then start else EndOf(ts[..|ts| - 1], start) + |ts[|ts| - 1]| + 1
  }

  function Aligned(n: int): int {
    (n + 7) / 8 * 8
  }

  /** Where string i is. */
  function Place(ts: seq<Text>, start: int, i: nat): int
    requires i < |ts|
  {
    EndOf(ts[..i], start)
  }

  lemma {:induction false} EndGrows(ts: seq<Text>, start: int, i: nat)
    requires i <= |ts|
    ensures start <= EndOf(ts[..i], start) <= EndOf(ts, start)
    decreases |ts|
  {
    if ts != [] {
      if i < |ts| {
        EndGrows(ts[..|ts| - 1], start, i);
        assert ts[..|ts| - 1][..i] == ts[..i];
      } else {
        EndGrows(ts[..|ts| - 1], start, |ts| - 1);
        assert ts[..i] == ts && ts[..|ts| - 1][..|ts| - 1] == ts[..|ts| - 1];
      }
    }
  }

  lemma EndStep(ts: seq<Text>, start: int, i: nat)
    requires i < |ts|
    ensures EndOf(ts[..i + 1], start) == EndOf(ts[..i], start) + |ts[i]| + 1 <= EndOf(ts, start)
  {
    assert ts[..i + 1][..i] == ts[..i];
    EndGrows(ts, start, i + 1);
  }

  /** Strings do not overlap, and all are within the size. */
  lemma StringsApart(ts: seq<Text>, start: int, i: nat, j: nat)
    requires i < j < |ts|
    ensures start <= Place(ts, start, i)
    ensures Place(ts, start, i) + |ts[i]| + 1 <= Place(ts, start, j)
    ensures Place(ts, start, j) + |ts[j]| + 1 <= EndOf(ts, start)
  {
    EndGrows(ts, start, i);
    EndGrows(ts[..i], start, 0);
    EndStep(ts, start, i);
    EndStep(ts, start, j);
    EndGrows(ts[..j], start, i + 1);
    assert ts[..j][..i + 1] == ts[..i + 1];
  }

  function Captions(o: Object): seq<Text>
    requires o.Menu? && InMemory(o)
  {
    [o.title.text, o.subtitle.text, o.bottom.text]
  }

  function Choices(o: Object): seq<Text>
    requires o.Menu? && InMemory(o)
  {
    Texts(o.choices.ptrs)
  }

  function TableStart(o: Object): int
    requires o.Menu? && InMemory(o)
  {
    Aligned(EndOf(Captions(o), OBJECT_SIZE))
  }

  /** The size of the message. */
  function Total(o: Object): int
    requires InMemory(o)
  {
    match o
    case Enq(_, t) => EndOf([t.text], OBJECT_SIZE)
    case Answ(_, t) => EndOf([t.text], OBJECT_SIZE)
    case Menu(_, _, _, _, _, count) => EndOf(Choices(o), TableStart(o) + POINTER_SIZE * count)
    case Other => OBJECT_SIZE
  }

  /** Behind the object come the captions, the aligned table of pointers, and the choices. */
  lemma RegionsApart(o: Object)
    requires o.Menu? && InMemory(o)
    ensures OBJECT_SIZE < EndOf(Captions(o), OBJECT_SIZE) <= TableStart(o) < EndOf(Captions(o), OBJECT_SIZE) + 8
    ensures TableStart(o) % 8 == 0 && TableStart(o) + POINTER_SIZE * o.count <= Total(o)
  {
    EndStep(Captions(o), OBJECT_SIZE, 2);
    EndGrows(Captions(o), OBJECT_SIZE, 2);
    EndGrows(Choices(o), TableStart(o) + POINTER_SIZE * o.count, 0);
  }

  /** mem holds the string, and the zero behind it, at this place. */
  predicate Holds(mem: seq<Byte>, at: int, t: Text) {
    0 <= at && at + |t| < |mem| && mem[at..at + |t|] == t && mem[at + |t|] == 0
  }

  predicate HoldsAll(mem: seq<Byte>, ts: seq<Text>, start: int) {
    forall i :: 0 <= i < |ts| ==> Holds(mem, Place(ts, start, i), ts[i])
  }

  predicate Offsets(ptrs: seq<Ptr>, ts: seq<Text>, start: int) {
    |ptrs| == |ts| && forall i :: 0 <= i < |ts| ==> ptrs[i] == At(Place(ts, start, i))
  }

  /** The message says o: s is the object in it, and table the pointers behind it. */
  predicate Says(mem: seq<Byte>, s: Object, table: seq<Ptr>, o: Object)
    requires InMemory(o)
  {
    match o
    case Enq(blind, t) => s == Enq(blind, At(OBJECT_SIZE)) && Holds(mem, OBJECT_SIZE, t.text)
    case Answ(ok, t) => s == Answ(ok, At(OBJECT_SIZE)) && Holds(mem, OBJECT_SIZE, t.text)
    case Menu(isList, _, _, _, _, count) =>
      && s == Menu(isList, At(Place(Captions(o), OBJECT_SIZE, 0)), At(Place(Captions(o), OBJECT_SIZE, 1)), At(Place(Captions(o), OBJECT_SIZE, 2)), TableAt(TableStart(o)), count)
      && HoldsAll(mem, Captions(o), OBJECT_SIZE)
      && Offsets(table, Choices(o), TableStart(o) + POINTER_SIZE * count)
      && HoldsAll(mem, Choices(o), TableStart(o) + POINTER_SIZE * count)
    case Other => s == Other
  }

  lemma HoldsStill(mem: seq<Byte>, mem': seq<Byte>, at: int, t: Text, end: int)
    requires Holds(mem, at, t) && at + |t| + 1 <= end && |mem'| == |mem|
    requires forall i :: 0 <= i < |mem| && i < end ==> mem'[i] == mem[i]
    ensures Holds(mem', at, t)
  {
  }

  lemma HoldsAllStill(mem: seq<Byte>, mem': seq<Byte>, ts: seq<Text>, start: int, end: int)
    requires HoldsAll(mem, ts, start) && EndOf(ts, start) <= end && |mem'| == |mem|
    requires forall i :: 0 <= i < |mem| && i < end ==> mem'[i] == mem[i]
    ensures HoldsAll(mem', ts, start)
  {
    forall i | 0 <= i < |ts| ensures Holds(mem', Place(ts, start, i), ts[i]) {
      EndStep(ts, start, i);
      HoldsStill(mem, mem', Place(ts, start, i), ts[i], end);
    }
  }

  lemma HoldsEarlier(mem: seq<Byte>, mem': seq<Byte>, ts: seq<Text>, start: int, i: nat)
    requires i <= |ts| && |mem'| == |mem|
    requires forall k :: 0 <= k < i ==> Holds(mem, Place(ts, start, k), ts[k])
    requires forall k :: 0 <= k < |mem| && k < EndOf(ts[..i], start) ==> mem'[k] == mem[k]
    ensures forall k :: 0 <= k < i ==> Holds(mem', Place(ts, start, k), ts[k])
  {
    hide Holds;
    forall k | 0 <= k < i ensures Holds(mem', Place(ts, start, k), ts[k]) {
      EndGrows(ts[..i], start, k + 1);
      assert ts[..i][..k + 1] == ts[..k + 1];
      EndStep(ts, start, k);
      HoldsStill(mem, mem', Place(ts, start, k), ts[k], EndOf(ts[..i], start));
    }
  }

  // ----- en50221_SerializeMMIObject -----

  /** STORE_MEMBER for a string. */
  method Store(mem: array<Byte>, max: int, size: nat, t: Text) returns (ok: bool, size': nat)
    requires max <= mem.Length
    modifies mem
    ensures ok == (size + |t| + 1 <= max) && size' == if ok then size + |t| + 1 else size
    ensures ok ==> Holds(mem[..], size, t)
    ensures forall i :: 0 <= i < mem.Length && i < size ==> mem[i] == old(mem[i])
  {
    size' := size;
    if |t| + 1 + size > max {
      return false, size;
    }
    var i := 0;
    while i < |t|
      invariant 0 <= i <= |t| && mem[size..size + i] == t[..i]
      invariant forall k :: 0 <= k < size ==> mem[k] == old(mem[k])
    {
      mem[size + i] := t[i];
      i := i + 1;
    }
    mem[size + i] := 0;
    return true, size + |t| + 1;
  }

  /** Strings one after the other, until one does not fit. */
  method StoreAll(mem: array<Byte>, max: int, start: nat, ts: seq<Text>) returns (ok: bool, ptrs: seq<Ptr>, size: nat)
    requires max <= mem.Length && start <= max
    modifies mem
    ensures ok == (EndOf(ts, start) <= max)
    ensures ok ==> size == EndOf(ts, start) && Offsets(ptrs, ts, start) && HoldsAll(mem[..], ts, start)
    ensures forall i :: 0 <= i < mem.Length && i < start ==> mem[i] == old(mem[i])
  {
    hide Holds, EndOf, Place;
    size, ptrs := start, [];
    var i := 0;
    Nothing(ts, start);
    while i < |ts|
      invariant 0 <= i <= |ts| && size == EndOf(ts[..i], start) <= max && |ptrs| == i && start <= size
      invariant forall k :: 0 <= k < i ==> ptrs[k] == At(Place(ts, start, k))
      invariant forall k :: 0 <= k < i ==> Holds(mem[..], Place(ts, start, k), ts[k])
      invariant forall k :: 0 <= k < mem.Length && k < start ==> mem[k] == old(mem[k])
    {
      EndStep(ts, start, i);
      PlaceIs(ts, start, i);
      ghost var before := mem[..];
      var at := size;
      ok, size := Store(mem, max, size, ts[i]);
      if !ok {
        return;
      }
      HoldsEarlier(before, mem[..], ts, start, i);
      ptrs := ptrs + [At(at)];
      i := i + 1;
    }
    assert ts[..i] == ts;
    ok := true;
  }

  lemma Nothing(ts: seq<Text>, start: int)
    ensures EndOf(ts[..0], start) == start
  {
  }

  lemma PlaceIs(ts: seq<Text>, start: int, i: nat)
    requires i < |ts|
    ensures Place(ts, start, i) == EndOf(ts[..i], start)
  {
  }

  /** A menu or a list. */
  method SerializeMenu(mem: array<Byte>, max: int, o: Object) returns (r: int, size: nat, s: Object, table: seq<Ptr>)
    requires o.Menu? && InMemory(o) && OBJECT_SIZE <= max <= mem.Length
    modifies mem
    ensures r == if Total(o) <= max then 0 else -1
    ensures r == 0 ==> size == Total(o) && Says(mem[..], s, table, o)
  {
    hide Holds, HoldsAll, EndOf, Place, Total, Captions, Choices, Offsets, Says;
    RegionsApart(o);
    MenuTotal(o);
    s, table := o, [];
    var ok, ptrs;
    ok, ptrs, size := StoreAll(mem, max, OBJECT_SIZE, [o.title.text, o.subtitle.text, o.bottom.text]);
    if !ok {
      return -1, size, s, table;
    }
    size := (size + 7) / 8 * 8;
    var start := size;
    if POINTER_SIZE * o.count + size > max {
      return -1, size, s, table;
    }
    size := size + POINTER_SIZE * o.count;
    ghost var before := mem[..];
    ok, table, size := StoreAll(mem, max, size, Texts(o.choices.ptrs));
    if !ok {
      return -1, size, s, table;
    }
    HoldsAllStill(before, mem[..], Captions(o), OBJECT_SIZE, start);
    Three(ptrs, Captions(o));
    s := Menu(o.isList, ptrs[0], ptrs[1], ptrs[2], TableAt(start), o.count);
    MenuSays(mem[..], ptrs, table, o);
    r := 0;
  }

  lemma Three(ptrs: seq<Ptr>, ts: seq<Text>)
    requires Offsets(ptrs, ts, OBJECT_SIZE)
    ensures |ptrs| == |ts|
  {
  }

  lemma MenuTotal(o: Object)
    requires o.Menu? && InMemory(o)
    ensures Total(o) == EndOf(Choices(o), TableStart(o) + POINTER_SIZE * o.count) && Choices(o) == Texts(o.choices.ptrs)
    ensures Captions(o) == [o.title.text, o.subtitle.text, o.bottom.text]
  {
  }

  lemma MenuSays(mem: seq<Byte>, ptrs: seq<Ptr>, table: seq<Ptr>, o: Object)
    requires o.Menu? && InMemory(o)
    requires Offsets(ptrs, Captions(o), OBJECT_SIZE) && HoldsAll(mem, Captions(o), OBJECT_SIZE)
    requires Offsets(table, Choices(o), TableStart(o) + POINTER_SIZE * o.count)
    requires HoldsAll(mem, Choices(o), TableStart(o) + POINTER_SIZE * o.count)
    ensures |ptrs| == 3 && Says(mem, Menu(o.isList, ptrs[0], ptrs[1], ptrs[2], TableAt(TableStart(o)), o.count), table, o)
  {
    hide HoldsAll;
  }

  /** en50221_SerializeMMIObject: it succeeds exactly if the object and its strings fit, and then the
      message says what the object says. */
  method Serialize(mem: array<Byte>, max: int, o: Object) returns (r: int, size: nat, s: Object, table: seq<Ptr>)
    requires InMemory(o) && max <= mem.Length
    modifies mem
    ensures r == if Total(o) <= max then 0 else -1
    ensures r == 0 ==> size == Total(o) <= max && Says(mem[..], s, table, o)
  {
    TotalAtLeast(o);
    s, table, size := o, [], 0;
    if OBJECT_SIZE > max {
      return -1, size, s, table;
    }
    size := OBJECT_SIZE;
    match o {
      case Enq(blind, t) =>
        var ok;
        OneString(t.text);
        ok, size := Store(mem, max, size, t.text);
        if !ok { return -1, size, s, table; }
        s := Enq(blind, At(OBJECT_SIZE));
      case Answ(good, t) =>
        var ok;
        OneString(t.text);
        ok, size := Store(mem, max, size, t.text);
        if !ok { return -1, size, s, table; }
        s := Answ(good, At(OBJECT_SIZE));
      case Menu(_, _, _, _, _, _) =>
        r, size, s, table := SerializeMenu(mem, max, o);
        return;
      case Other =>
    }
    r := 0;
  }

  lemma OneString(t: Text)
    ensures EndOf([t], OBJECT_SIZE) == OBJECT_SIZE + |t| + 1
  {
    assert [t][..0] == [];
  }

  lemma TotalAtLeast(o: Object)
    requires InMemory(o)
    ensures Total(o) >= OBJECT_SIZE
  {
    match o
    case Enq(_, t) => OneString(t.text);
    case Answ(_, t) => OneString(t.text);
    case Menu(_, _, _, _, _, _) => RegionsApart(o);
    case Other =>
  }

  // ----- en50221_UnserializeMMIObject -----

  /** What lies outside of the message is arbitrary. */
  method Peek(mem: array<Byte>, at: int) returns (b: Byte)
    ensures 0 <= at < mem.Length ==> b == mem[at]
  {
    if 0 <= at < mem.Length {
      b := mem[at];
    } else {
      b := *;
    }
  }

  /** CHECK_MEMBER looks one byte too far: a string is let through if its zero is the byte behind the message. */
  predicate LetThrough(mem: seq<Byte>, size: int, at: int) {
    0 <= at < size < |mem| && 0 in mem[at..size + 1]
  }

  /** The string at this place, up to its zero, which may be the byte behind the message. */
  predicate StringAt(mem: seq<Byte>, size: int, at: int, t: Text) {
    0 <= at && at + |t| <= size < |mem| && t == mem[at..at + |t|] && IsText(t) && mem[at + |t|] == 0
  }

  /** A string that was let through ends within the message exactly if the message has a zero from there on. */
  lemma EndsWithin(mem: seq<Byte>, size: int, at: int, t: Text)
    requires StringAt(mem, size, at, t) && at < size
    ensures at + |t| < size <==> 0 in mem[at..size]
    ensures LetThrough(mem, size, at)
  {
    assert mem[at..size + 1][|t|] == 0;
    if at + |t| < size {
      assert mem[at..size][|t|] == 0;
    } else {
      assert mem[at..size] == t;
    }
  }

  /** For example, of a message of one byte: the string goes on behind the end. */
  lemma EndsBehind()
    ensures var mem: seq<Byte> := [1, 0];
      LetThrough(mem, 1, 0) && StringAt(mem, 1, 0, [1]) && 0 !in mem[0..1]
  {
    var mem: seq<Byte> := [1, 0];
    assert mem[0..1] == [1] && mem[0..2] == mem;
    EndsWithin(mem, 1, 0, [1]);
  }

  /** CHECK_MEMBER, and the string that the pointer then leads to: u, if u is there and ends within the
      size. */
  method Check(mem: array<Byte>, size: int, at: int, ghost u: Text) returns (ok: bool, t: Text)
    ensures ok ==> at < size
    ensures IsText(u) && Holds(mem[..], at, u) && at + |u| < size ==> ok && t == u
    ensures 0 <= at && size < mem.Length ==> (ok <==> LetThrough(mem[..], size, at)) && (ok ==> StringAt(mem[..], size, at, t))
  {
    hide LetThrough, StringAt;
    t := [];
    ghost var inside := 0 <= at && size < mem.Length;
    if at >= size {
      OutOfReach(mem[..], size, at);
      return false, t;
    }
    ghost var there := IsText(u) && Holds(mem[..], at, u) && at + |u| < size;
    assert there ==> forall k :: 0 <= k < |u| ==> mem[at + k] == u[k] != 0 by {
      assert there ==> forall k :: 0 <= k < |u| ==> mem[..][at..at + |u|][k] == u[k];
    }
    var i := 0;
    var b := Peek(mem, at);
    while b != 0
      invariant 0 <= i && at + i <= size
      invariant there ==> i <= |u| && t == u[..i] && b == mem[at + i]
      invariant inside ==> t == mem[..][at..at + i] && IsText(t) && b == mem[at + i]
      decreases size - at - i
    {
      if at + i >= size {
        if inside { NoZero(mem[..], size, at, t); }
        return false, t;
      }
      if inside { OneLonger(mem[..], at, i, t, b); }
      t := t + [b];
      i := i + 1;
      b := Peek(mem, at + i);
    }
    if inside { Found(mem[..], size, at, t); }
    ok := true;
  }

  lemma OutOfReach(mem: seq<Byte>, size: int, at: int)
    requires at >= size
    ensures !LetThrough(mem, size, at)
  {
  }

  lemma Found(mem: seq<Byte>, size: int, at: int, t: Text)
    requires 0 <= at < size < |mem| && at + |t| <= size && t == mem[at..at + |t|] && IsText(t) && mem[at + |t|] == 0
    ensures StringAt(mem, size, at, t) && LetThrough(mem, size, at)
  {
    EndsWithin(mem, size, at, t);
  }

  lemma OneLonger(mem: seq<Byte>, at: int, i: nat, t: Text, b: Byte)
    requires 0 <= at && at + i < |mem| && t == mem[at..at + i] && IsText(t) && b == mem[at + i] != 0
    ensures t + [b] == mem[at..at + i + 1] && IsText(t + [b])
  {
  }

  lemma NoZero(mem: seq<Byte>, size: int, at: int, t: Text)
    requires 0 <= at < size < |mem| && t == mem[at..size] && IsText(t) && mem[size] != 0
    ensures !LetThrough(mem, size, at)
  {
    assert mem[at..size + 1] == t + [mem[size]];
  }

  /** The captions, or the choices, of a menu. */
  method CheckAll(mem: array<Byte>, size: int, table: seq<Ptr>, ghost us: seq<Text>, ghost start: int) returns (ok: bool, ptrs: seq<Ptr>)
    requires forall i :: 0 <= i < |table| ==> table[i].At?
    ensures ok ==> |ptrs| == |table|
    ensures Stored(mem[..], table, us, start, size) ==> ok && |us| == |table| && forall i :: 0 <= i < |us| ==> ptrs[i] == To(us[i])
    ensures NotBefore(table) && size < mem.Length ==>
      && (ok <==> AllThrough(mem[..], size, table))
      && (ok ==> StringsAt(mem[..], size, table, ptrs))
  {
    hide Stored, Holds, LetThrough, StringAt;
    ghost var inside := NotBefore(table) && size < mem.Length;
    ghost var stored := Stored(mem[..], table, us, start, size);
    assert stored ==> |us| == |table| by {
      if stored { StoredAll(mem[..], table, us, start, size); }
    }
    ptrs := [];
    var j := 0;
    while j < |table|
      invariant 0 <= j <= |table| && |ptrs| == j
      invariant stored ==> forall i :: 0 <= i < j ==> ptrs[i] == To(us[i])
      invariant inside ==> forall i :: 0 <= i < j ==> LetThrough(mem[..], size, table[i].offset)
      invariant inside ==> StringsAt(mem[..], size, table[..j], ptrs)
    {
      ghost var u := if j < |us| then us[j] else [];
      if stored {
        StoredAt(mem[..], table, us, start, size, j);
      }
      var t;
      ok, t := Check(mem, size, table[j].offset, u);
      if !ok {
        return;
      }
      ptrs := ptrs + [To(t)];
      j := j + 1;
    }
    ok := true;
  }

  predicate NotBefore(table: seq<Ptr>) {
    forall i :: 0 <= i < |table| ==> table[i].At? && 0 <= table[i].offset
  }

  predicate AllThrough(mem: seq<Byte>, size: int, table: seq<Ptr>)
    requires NotBefore(table)
  {
    forall i :: 0 <= i < |table| ==> LetThrough(mem, size, table[i].offset)
  }

  /** The pointers lead to the strings at the offsets. */
  predicate StringsAt(mem: seq<Byte>, size: int, table: seq<Ptr>, ptrs: seq<Ptr>)
    requires NotBefore(table)
  {
    |ptrs| == |table| && forall i :: 0 <= i < |ptrs| ==> ptrs[i].To? && StringAt(mem, size, table[i].offset, ptrs[i].text)
  }

  /** The pointers of a message, all of them. */
  function Pointers(s: Object, table: seq<Ptr>): seq<Ptr> {
    match s
    case Enq(_, t) => [t]
    case Answ(_, t) => [t]
    case Menu(_, t, u, b, _, _) => [t, u, b] + table
    case Other => []
  }

  /** What Unserialize takes for a message, from wherever it comes. */
  predicate Acceptable(mem: seq<Byte>, size: int, s: Object, table: seq<Ptr>)
    requires Relocated(s, table) && NotBefore(Pointers(s, table))
  {
    AllThrough(mem, size, Pointers(s, table)) && (s.Menu? ==> s.choices.offset + s.count * POINTER_SIZE < size)
  }

  /** The object has the strings of the message. */
  predicate ReadFrom(mem: seq<Byte>, size: int, s: Object, table: seq<Ptr>, back: Object)
    requires Relocated(s, table) && NotBefore(Pointers(s, table))
  {
    match s
    case Enq(blind, _) => back.Enq? && back.blind == blind && StringsAt(mem, size, Pointers(s, table), [back.text])
    case Answ(ok, _) => back.Answ? && back.ok == ok && StringsAt(mem, size, Pointers(s, table), [back.answ])
    case Menu(isList, _, _, _, _, count) =>
      && back.Menu? && back.isList == isList && back.count == count && back.choices.ToTable?
      && StringsAt(mem, size, Pointers(s, table), [back.title, back.subtitle, back.bottom] + back.choices.ptrs)
    case Other => back == s
  }

  lemma StoredAll(mem: seq<Byte>, table: seq<Ptr>, us: seq<Text>, start: int, size: int)
    requires Stored(mem, table, us, start, size)
    ensures |us| == |table|
  {
  }

  lemma StoredAt(mem: seq<Byte>, table: seq<Ptr>, us: seq<Text>, start: int, size: int, j: nat)
    requires Stored(mem, table, us, start, size) && j < |us|
    ensures |us| == |table| && table[j].At? && IsText(us[j])
    ensures Holds(mem, table[j].offset, us[j]) && table[j].offset + |us[j]| < size
  {
    hide Holds;
    EndStep(us, start, j);
  }

  ghost predicate Stored(mem: seq<Byte>, table: seq<Ptr>, us: seq<Text>, start: int, size: int) {
    && Offsets(table, us, start) && HoldsAll(mem, us, start) && EndOf(us, start) <= size
    && forall i :: 0 <= i < |us| ==> IsText(us[i])
  }

  /** A message: an object and a table with offsets for pointers. */
  predicate Relocated(s: Object, table: seq<Ptr>) {
    match s
    case Enq(_, t) => t.At?
    case Answ(_, t) => t.At?
    case Menu(_, t, u, b, choices, count) =>
      t.At? && u.At? && b.At? && choices.TableAt? && count == |table| && forall i :: 0 <= i < |table| ==> table[i].At?
    case Other => true
  }

  /** en50221_UnserializeMMIObject.  It gives back every object that was serialized, but for menus and
      lists without choices, whose empty table it takes to be outside of the message. */
  method Unserialize(mem: array<Byte>, size: int, s: Object, table: seq<Ptr>, ghost o: Object) returns (r: int, back: Object)
    requires Relocated(s, table) && InMemory(o)
    ensures Says(mem[..], s, table, o) && size == Total(o) ==>
      && (r == 0 <==> !(o.Menu? && o.count == 0))
      && (r == 0 ==> back == o)
    ensures NotBefore(Pointers(s, table)) && size < mem.Length ==>
      && (r == 0 <==> Acceptable(mem[..], size, s, table))
      && (r == 0 ==> ReadFrom(mem[..], size, s, table, back))
  {
    hide LetThrough, StringAt;
    back := s;
    match s {
      case Enq(blind, at) =>
        ghost var u := if o.Enq? then o.text.text else [];
        OneString(u);
        assert Pointers(s, table)[0] == at;
        var ok, t := Check(mem, size, at.offset, u);
        if !ok { return -1, back; }
        back := Enq(blind, To(t));
      case Answ(good, at) =>
        ghost var u := if o.Answ? then o.answ.text else [];
        OneString(u);
        assert Pointers(s, table)[0] == at;
        var ok, t := Check(mem, size, at.offset, u);
        if !ok { return -1, back; }
        back := Answ(good, To(t));
      case Menu(_, _, _, _, _, _) =>
        r, back := UnserializeMenu(mem, size, s, table, o);
        return;
      case Other =>
    }
    r := 0;
  }

  method UnserializeMenu(mem: array<Byte>, size: int, s: Object, table: seq<Ptr>, ghost o: Object) returns (r: int, back: Object)
    requires s.Menu? && Relocated(s, table) && InMemory(o)
    ensures Says(mem[..], s, table, o) && size == Total(o) ==> (r == 0 <==> o.count != 0) && (r == 0 ==> back == o)
    ensures NotBefore(Pointers(s, table)) && size < mem.Length ==>
      && (r == 0 <==> Acceptable(mem[..], size, s, table))
      && (r == 0 ==> ReadFrom(mem[..], size, s, table, back))
  {
    hide Holds, Stored, LetThrough, StringAt, AllThrough, StringsAt, NotBefore, Total, Captions, Choices, TableStart, Plain;
    ghost var inside := NotBefore(Pointers(s, table)) && size < mem.Length;
    if inside {
      PointersSplit(mem[..], size, s, table);
    }
    back := s;
    ghost var said := Says(mem[..], s, table, o) && size == Total(o);
    ghost var us, cs, start := if said then Captions(o) else [[], [], []], if said then Choices(o) else [], if said then TableStart(o) + POINTER_SIZE * o.count else 0;
    if said {
      MenuStored(mem[..], s, table, o);
    }
    var ok, captions := CheckAll(mem, size, [s.title, s.subtitle, s.bottom], us, OBJECT_SIZE);
    if !ok {
      return -1, back;
    }
    if s.choices.offset + s.count * POINTER_SIZE >= size {
      if said { ChoicesEnd(o); }
      return -1, back;
    }
    if said { ChoicesEnd(o); }
    var choices;
    ok, choices := CheckAll(mem, size, table, cs, start);
    if !ok {
      return -1, back;
    }
    back := Menu(s.isList, captions[0], captions[1], captions[2], ToTable(choices), s.count);
    if said {
      SameMenu(o, back, captions, choices);
    }
    if inside {
      assert captions == [captions[0], captions[1], captions[2]];
      StringsJoin(mem[..], size, [s.title, s.subtitle, s.bottom], table, captions, choices);
    }
    r := 0;
  }

  lemma PointersSplit(mem: seq<Byte>, size: int, s: Object, table: seq<Ptr>)
    requires s.Menu? && NotBefore(Pointers(s, table))
    ensures NotBefore([s.title, s.subtitle, s.bottom]) && NotBefore(table)
    ensures AllThrough(mem, size, Pointers(s, table)) <==> AllThrough(mem, size, [s.title, s.subtitle, s.bottom]) && AllThrough(mem, size, table)
  {
    hide LetThrough;
    var p, a := Pointers(s, table), [s.title, s.subtitle, s.bottom];
    assert forall i :: 0 <= i < 3 ==> p[i] == a[i];
    assert forall i :: 0 <= i < |table| ==> p[i + 3] == table[i];
    if AllThrough(mem, size, a) && AllThrough(mem, size, table) {
      forall i | 0 <= i < |p| ensures LetThrough(mem, size, p[i].offset) {
        assert i >= 3 ==> p[i] == table[i - 3];
      }
    }
  }

  lemma StringsJoin(mem: seq<Byte>, size: int, a: seq<Ptr>, b: seq<Ptr>, pa: seq<Ptr>, pb: seq<Ptr>)
    requires NotBefore(a) && NotBefore(b) && StringsAt(mem, size, a, pa) && StringsAt(mem, size, b, pb)
    ensures NotBefore(a + b) && StringsAt(mem, size, a + b, pa + pb)
  {
    hide StringAt;
  }

  lemma ChoicesEnd(o: Object)
    requires o.Menu? && InMemory(o)
    ensures Total(o) <= TableStart(o) + POINTER_SIZE * o.count <==> o.count == 0
  {
    var start := TableStart(o) + POINTER_SIZE * o.count;
    if o.count > 0 {
      EndStep(Choices(o), start, 0);
      assert Choices(o)[..0] == [];
    }
  }

  lemma MenuStored(mem: seq<Byte>, s: Object, table: seq<Ptr>, o: Object)
    requires o.Menu? && InMemory(o) && Says(mem, s, table, o)
    ensures s.Menu? && Stored(mem, [s.title, s.subtitle, s.bottom], Captions(o), OBJECT_SIZE, Total(o))
    ensures Stored(mem, table, Choices(o), TableStart(o) + POINTER_SIZE * o.count, Total(o))
  {
    hide Holds;
    RegionsApart(o);
  }

  lemma SameMenu(o: Object, back: Object, captions: seq<Ptr>, choices: seq<Ptr>)
    requires o.Menu? && InMemory(o) && |captions| == 3 && |choices| == o.count
    requires forall i :: 0 <= i < 3 ==> captions[i] == To(Captions(o)[i])
    requires forall i :: 0 <= i < o.count ==> choices[i] == To(Choices(o)[i])
    requires back == Menu(o.isList, captions[0], captions[1], captions[2], ToTable(choices), o.count)
    ensures back == o
  {
    assert choices == o.choices.ptrs;
  }
}
