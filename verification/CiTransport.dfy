/** The transport and session layers of EN 50221 at work: per slot a linked queue of TPDUs of which one at
    a time may be waiting for its answer. */
module CiTransport {
  import opened Common
  import opened CiLength
  import opened CiTpdu

  class Msg {
    const data: seq<Byte>
    var next: Msg?

    constructor (data: seq<Byte>)
      ensures this.data == data && next == null
    {
      this.data, next := data, null;
    }
  }

  function Datas(nodes: seq<Msg>): seq<seq<Byte>> {
    if nodes == [] then [] else [nodes[0].data] + Datas(nodes[1..])
  }

  lemma {:induction false} DatasAppend(nodes: seq<Msg>, m: Msg)
    ensures Datas(nodes + [m]) == Datas(nodes) + [m.data]
  {
    if nodes == [] {
      assert [m][1..] == [];
    } else {
      DatasAppend(nodes[1..], m);
      assert (nodes + [m])[1..] == nodes[1..] + [m];
    }
  }

  /** ci_slot_t.  pp_send_last is the address of last.next, or of `send` if `last` is null. */
  class Slot {
    const id: SlotId
    const reliable: bool
    var active: bool
    var expectAnswer: bool
    var hasData: bool
    var recv: Option<seq<Byte>>
    var send: Msg?
    var last: Msg?
    var pending: int
    ghost var nodes: seq<Msg>
    ghost var queued: seq<seq<Byte>>
    ghost var left: seq<seq<Byte>>
    ghost var delivered: seq<seq<Byte>>

    constructor (id: SlotId, reliable: bool)
      ensures Valid() && nodes == [] && !expectAnswer && recv == None && pending == 0 && this.id == id && this.reliable == reliable
      ensures queued == left == delivered == []
    {
      this.id, this.reliable := id, reliable;
      active, expectAnswer, hasData, recv, pending := false, false, false, None, 0;
      send, last, nodes := null, null, [];
      queued, left, delivered := [], [], [];
    }

    /** The list is what it should be, its end is where the next TPDU will be linked, and the TPDUs that
        left, followed by those in the list, are those that were queued. */
    ghost predicate Valid()
      reads `send, `last, `nodes, `queued, `left, nodes
    {
      && NoDup(nodes)
      && (if nodes == [] then send == null && last == null
          else send == nodes[0] && last == nodes[|nodes| - 1] && nodes[|nodes| - 1].next == null)
      && (forall i :: 0 <= i < |nodes| - 1 ==> nodes[i].next == nodes[i + 1])
      && queued == left + Datas(nodes)
    }

    /** The end of TPDUSend's list work: *pp_send_last = p_send. */
    method Append(data: seq<Byte>)
      requires Valid()
      modifies `send, `last, `nodes, `queued, nodes
      ensures Valid() && queued == old(queued) + [data]
      ensures |nodes| == |old(nodes)| + 1 && nodes[..|old(nodes)|] == old(nodes) && fresh(nodes[|old(nodes)|])
    {
      var m := new Msg(data);
      DatasAppend(nodes, m);
      if last == null {
        send := m;
      } else {
        last.next := m;
      }
      last := m;
      nodes := nodes + [m];
      queued := queued + [data];
    }

    /** The first TPDU leaves the list. */
    method TakeFirst() returns (data: seq<Byte>)
      requires Valid() && nodes != []
      modifies `send, `last, `nodes, `left
      ensures Valid() && nodes == old(nodes)[1..] && left == old(left) + [data] && data == old(nodes)[0].data
    {
      data := send.data;
      send := send.next;
      if send == null {
        last := null;
      }
      left := left + [data];
      nodes := nodes[1..];
    }

    method WriteDevice(data: seq<Byte>) returns (ok: bool)
      ensures reliable ==> ok
    {
      ok :| reliable ==> ok;
    }

    /** TPDUWrite must not be called while an answer is expected. */
    method TpduWrite() returns (r: int)
      requires Valid() && !expectAnswer
      modifies `send, `last, `nodes, `left, `expectAnswer
      ensures Valid()
      ensures nodes == if old(nodes) == [] then [] else old(nodes)[1..]
      ensures left == old(left) + if old(nodes) == [] then [] else [old(nodes)[0].data]
      ensures expectAnswer == (r == 0) && (reliable && old(nodes) != [] ==> r == 0)
      ensures old(nodes) == [] ==> r == -1
    {
      if send == null {
        return -1;
      }
      var data := TakeFirst();
      var ok := WriteDevice(data);
      if !ok {
        return -1;
      }
      expectAnswer := true;
      return 0;
    }

    /** The bytes of a TPDU. */
    method Build(tag: Byte, content: seq<Byte>) returns (data: seq<Byte>)
      requires |content| <= MAX_TPDU_DATA && (HasReason(tag) ==> content != [])
      ensures data == Tpdu(id, tag, content)
    {
      var buf := new Byte[MAX_TPDU_SIZE];
      var tcid: Byte := id + 1;
      var size := 0;
      buf[0], buf[1], buf[2] := id, tcid, tag;
      if IsPlain(tag) {
        buf[3], buf[4] := 1, tcid;
        size := 5;
      } else if HasReason(tag) {
        buf[3], buf[4], buf[5] := 2, tcid, content[0];
        size := 6;
      } else if IsData(tag) {
        size := BuildData(buf, tcid, content);
      }
      data := buf[..size];
    }

    method BuildData(buf: array<Byte>, tcid: Byte, content: seq<Byte>) returns (size: nat)
      requires buf.Length == MAX_TPDU_SIZE && |content| <= MAX_TPDU_DATA
      modifies buf
      ensures size <= buf.Length
      ensures buf[..size] == old(buf[..3]) + LengthField(|content| + 1) + [tcid] + content
    {
      hide LengthField;
      FieldFits(|content| + 1);
      var p := SetLength(buf, 3, |content| + 1);
      ghost var head := old(buf[..3]) + LengthField(|content| + 1);
      assert buf[..p] == buf[..3] + buf[3..p];
      buf[p] := tcid;
      p := p + 1;
      assert buf[..p] == head + [tcid];
      var i := 0;
      while i < |content|
        invariant 0 <= i <= |content| && p + |content| <= buf.Length
        invariant buf[..p + i] == head + [tcid] + content[..i]
      {
        buf[p + i] := content[i];
        assert content[..i + 1] == content[..i] + [content[i]];
        i := i + 1;
      }
      assert content[..i] == content;
      size := p + |content|;
    }

    /** TPDUSend: the TPDU is queued behind the others, and if no answer is expected, the first one is
        written. */
    method TpduSend(tag: Byte, content: seq<Byte>) returns (r: int)
      requires Valid() && |content| <= MAX_TPDU_DATA && (HasReason(tag) ==> content != [])
      modifies `send, `last, `nodes, `queued, `left, `expectAnswer, nodes
      ensures Valid() && queued == old(queued) + [Tpdu(id, tag, content)]
      ensures |left| == |old(left)| + (if old(expectAnswer) then 0 else 1) && old(left) <= left
      ensures OldOrFresh(old(nodes), nodes)
      ensures old(expectAnswer) ==> expectAnswer && r == 0
      ensures reliable ==> expectAnswer && r == 0
      ensures !old(expectAnswer) && old(nodes) == [] ==> nodes == []
    {
      var data := Build(tag, content);
      Append(data);
      r := 0;
      if !expectAnswer {
        r := TpduWrite();
      }
    }

    /** One round of the loop of SPDUSend. */
    method SendFragment(spdu: seq<Byte>, offset: nat) returns (r: int, next: nat)
      requires Valid() && offset < |spdu|
      modifies `send, `last, `nodes, `queued, `left, `expectAnswer, nodes
      ensures offset < next <= |spdu|
      ensures Valid() && old(left) <= left && queued == old(queued) + [FragmentAt(id, spdu, offset)]
      ensures Tpdus(id, Fragments(spdu[offset..])) == [FragmentAt(id, spdu, offset)] + TpdusFrom(id, spdu, next)
      ensures OldOrFresh(old(nodes), nodes)
      ensures old(expectAnswer) ==> expectAnswer && r == 0
      ensures reliable ==> expectAnswer && r == 0
      ensures !old(expectAnswer) && old(nodes) == [] ==> nodes == []
    {
      hide Valid, Tpdu, Tpdus, Fragments;
      NextFragment(id, spdu, offset);
      if |spdu| - offset > MAX_TPDU_DATA {
        r := TpduSend(T_DATA_MORE, spdu[offset..offset + MAX_TPDU_DATA]);
        next := offset + MAX_TPDU_DATA;
      } else {
        r := TpduSend(T_DATA_LAST, spdu[offset..]);
        next := |spdu|;
      }
    }

    /** SPDUSend, once the SPDU has its session header: all its TPDUs are queued in order, up to the
        first one that cannot be written. */
    method SendSpdu(spdu: seq<Byte>) returns (r: int)
      requires Valid() && spdu != []
      modifies `send, `last, `nodes, `queued, `left, `expectAnswer, nodes
      ensures Valid() && old(queued) <= queued <= old(queued) + Tpdus(id, Fragments(spdu))
      ensures old(left) <= left
      ensures r == 0 ==> queued == old(queued) + Tpdus(id, Fragments(spdu))
      ensures OldOrFresh(old(nodes), nodes)
      ensures old(expectAnswer) ==> expectAnswer && r == 0
      ensures reliable ==> expectAnswer && r == 0
      ensures !expectAnswer && old(nodes) == [] ==> nodes == []
    {
      hide Valid, Tpdus, Fragments, FragmentAt;
      var offset := 0;
      ghost var done, queued0, all := [], queued, Tpdus(id, Fragments(spdu));
      assert spdu[0..] == spdu && [] + all == all;
      while offset < |spdu|
        invariant 0 <= offset <= |spdu| && Valid()
        invariant queued == queued0 + done && old(left) <= left
        invariant all == done + TpdusFrom(id, spdu, offset)
        invariant OldOrFresh(old(nodes), nodes)
        invariant old(expectAnswer) ==> expectAnswer
        invariant reliable && offset > 0 ==> expectAnswer
        invariant !expectAnswer && old(nodes) == [] ==> nodes == []
      {
        ghost var sent := FragmentAt(id, spdu, offset);
        r, offset := SendFragment(spdu, offset);
        done := done + [sent];
        QueuedPart(queued0, done, all);
        if r != 0 {
          return -1;
        }
      }
      r := 0;
    }

    /** ResetSlot, for the queues: what was waiting is dropped. */
    method Clear()
      requires Valid()
      modifies `expectAnswer, `active, `recv, `send, `last, `nodes, `queued
      ensures Valid() && nodes == [] && queued == left && !expectAnswer && !active && recv == None
    {
      active, expectAnswer := false, false;
      recv := None;
      while send != null
        invariant (send == null) == (nodes == []) && (nodes != [] ==> send == nodes[0])
        invariant |nodes| <= |old(nodes)| && nodes == old(nodes)[|old(nodes)| - |nodes|..]
        invariant !active && !expectAnswer && recv == None
        decreases |nodes|
      {
        ghost var k := |old(nodes)| - |nodes|;
        assert nodes[0] == old(nodes)[k] && (k + 1 < |old(nodes)| ==> old(nodes)[k].next == old(nodes)[k + 1]);
        send := send.next;
        nodes := nodes[1..];
      }
      last := null;
      queued := left;
    }
  }

  /** The TPDU of SPDUSend for the bytes from offset on ... */
  function FragmentAt(slot: SlotId, spdu: seq<Byte>, offset: nat): seq<Byte>
    requires offset < |spdu|
  {
    if |spdu| - offset > MAX_TPDU_DATA
    then Tpdu(slot, T_DATA_MORE, spdu[offset..offset + MAX_TPDU_DATA])
    else Tpdu(slot, T_DATA_LAST, spdu[offset..])
  }

  /** ... and those for all of them. */
  function TpdusFrom(slot: SlotId, spdu: seq<Byte>, offset: nat): seq<seq<Byte>>
    requires offset <= |spdu|
  {
    if offset < |spdu| then Tpdus(slot, Fragments(spdu[offset..])) else []
  }

  lemma QueuedPart(before: seq<seq<Byte>>, done: seq<seq<Byte>>, all: seq<seq<Byte>>)
    requires done <= all
    ensures before <= before + done <= before + all
  {
  }

  /** The TPDUs for fragments. */
  function Tpdus(slot: SlotId, fs: seq<Frag>): seq<seq<Byte>> {
    if fs == [] then []
    else [if IsData(fs[0].tag) && |fs[0].content| <= MAX_TPDU_DATA then Tpdu(slot, fs[0].tag, fs[0].content) else []] + Tpdus(slot, fs[1..])
  }

  lemma TpdusCons(slot: SlotId, f: Frag, fs: seq<Frag>)
    requires IsData(f.tag) && |f.content| <= MAX_TPDU_DATA
    ensures Tpdus(slot, [f] + fs) == [Tpdu(slot, f.tag, f.content)] + Tpdus(slot, fs)
  {
    assert ([f] + fs)[1..] == fs;
  }

  lemma NextFragment(slot: SlotId, spdu: seq<Byte>, offset: nat)
    requires offset < |spdu|
    ensures Tpdus(slot, Fragments(spdu[offset..])) == [FragmentAt(slot, spdu, offset)] +
      if |spdu| - offset > MAX_TPDU_DATA then TpdusFrom(slot, spdu, offset + MAX_TPDU_DATA) else []
  {
    hide Tpdu, Tpdus;
    var rest := spdu[offset..];
    if |rest| > MAX_TPDU_DATA {
      assert rest[..MAX_TPDU_DATA] == spdu[offset..offset + MAX_TPDU_DATA];
      assert rest[MAX_TPDU_DATA..] == spdu[offset + MAX_TPDU_DATA..];
      TpdusCons(slot, Frag(T_DATA_MORE, rest[..MAX_TPDU_DATA]), Fragments(rest[MAX_TPDU_DATA..]));
    } else {
      TpdusCons(slot, Frag(T_DATA_LAST, rest), []);
      NoTpdus(slot);
      assert [Frag(T_DATA_LAST, rest)] + [] == [Frag(T_DATA_LAST, rest)];
    }
  }

  /** What is queued for an SPDU fits and reads back as its fragments. */
  lemma {:induction false} TpdusRead(slot: SlotId, fs: seq<Frag>)
    requires forall i :: 0 <= i < |fs| ==> IsData(fs[i].tag) && |fs[i].content| <= MAX_TPDU_DATA
    ensures |Tpdus(slot, fs)| == |fs|
    ensures forall i :: 0 <= i < |fs| ==> var data := Tpdus(slot, fs)[i];
      |data| <= MAX_TPDU_SIZE && Readable(data) && Parse(data) == Received(slot, fs[i].tag, fs[i].content)
  {
    hide Tpdu, Readable, Parse;
    if fs != [] {
      var data := Tpdu(slot, fs[0].tag, fs[0].content);
      TpduFits(slot, fs[0].tag, fs[0].content);
      ParseTpdu(slot, fs[0].tag, fs[0].content, []);
      assert data + [] == data;
      TpdusRead(slot, fs[1..]);
      forall i | 0 <= i < |fs| ensures var data := Tpdus(slot, fs)[i];
        |data| <= MAX_TPDU_SIZE && Readable(data) && Parse(data) == Received(slot, fs[i].tag, fs[i].content)
      {
        if i > 0 {
          assert Tpdus(slot, fs)[i] == Tpdus(slot, fs[1..])[i - 1];
        }
      }
    }
  }

  lemma NoTpdus(slot: SlotId)
    ensures Tpdus(slot, []) == []
  {
  }

  /** A list got no nodes but new ones. */
  twostate predicate OldOrFresh(before: seq<Msg>, new now: seq<Msg>) {
    forall i :: 0 <= i < |now| ==> now[i] in before || fresh(now[i])
  }

  lemma NothingWaits(s: Slot)
    requires s.Valid() && s.send == null
    ensures s.nodes == []
  {
  }

  ghost function AllWas(ss: seq<Slot>): (was: seq<Was>)
    reads ss
    ensures |was| == |ss|
    ensures forall i :: 0 <= i < |ss| ==> was[i] == Was(ss[i].queued, ss[i].left, ss[i].recv, ss[i].delivered, ss[i].expectAnswer, ss[i].nodes)
  {
    if ss == [] then [] else [Was(ss[0].queued, ss[0].left, ss[0].recv, ss[0].delivered, ss[0].expectAnswer, ss[0].nodes)] + AllWas(ss[1..])
  }

  ghost function AllQueues(ss: seq<Slot>): (r: seq<seq<seq<Byte>>>)
    reads ss
    ensures |r| == |ss| && forall i :: 0 <= i < |ss| ==> r[i] == ss[i].queued
  {
    if ss == [] then [] else [ss[0].queued] + AllQueues(ss[1..])
  }

  ghost function AllMarks(ss: seq<Slot>): (r: seq<Mark>)
    reads ss
    ensures |r| == |ss| && forall i :: 0 <= i < |ss| ==> r[i] == Mark(ss[i].pending, ss[i].hasData, ss[i].active)
  {
    if ss == [] then [] else [Mark(ss[0].pending, ss[0].hasData, ss[0].active)] + AllMarks(ss[1..])
  }

  lemma FieldFits(n: int)
    requires 0 <= n <= MAX_TPDU_DATA + 1
    ensures |LengthField(n)| <= 3
  {
  }

  // ----- the device with its slots and sessions -----

  const MAX_SESSIONS := 32
  const ST_SESSION_NUMBER: Byte := 0x90
  const ST_OPEN_SESSION_REQUEST: Byte := 0x91
  const ST_OPEN_SESSION_RESPONSE: Byte := 0x92
  const ST_CREATE_SESSION_RESPONSE: Byte := 0x94
  const ST_CLOSE_SESSION_REQUEST: Byte := 0x95
  const ST_CLOSE_SESSION_RESPONSE: Byte := 0x96
  const SS_OK: Byte := 0x00
  const SS_NOT_ALLOCATED: Byte := 0xF0
  const RI_RESOURCE_MANAGER := 0x00010041
  const RI_APPLICATION_INFORMATION := 0x00020041
  const RI_CONDITIONAL_ACCESS_SUPPORT := 0x00030041
  const RI_DATE_TIME := 0x00240041
  const RI_MMI := 0x00400041

  predicate Supported(resource: int) {
    resource == RI_RESOURCE_MANAGER || resource == RI_APPLICATION_INFORMATION || resource == RI_CONDITIONAL_ACCESS_SUPPORT
    || resource == RI_DATE_TIME || resource == RI_MMI
  }

  /** A session is free if its resource is 0. */
  datatype Session = Session(slot: nat, resource: int)

  type SessionTable = s: seq<Session> | |s| == MAX_SESSIONS
    witness seq(MAX_SESSIONS, _ => Session(0, 0))

  datatype Was = Was(queued: seq<seq<Byte>>, left: seq<seq<Byte>>, recv: Option<seq<Byte>>, delivered: seq<seq<Byte>>, expectAnswer: bool, nodes: seq<Msg>)

  datatype Mark = Mark(pending: int, hasData: bool, active: bool)

  /** The session table, all that was queued for every slot, and what every slot is to do. */
  datatype Scene = Scene(table: seq<Session>, queues: seq<seq<seq<Byte>>>, marks: seq<Mark>)

  /** The resources of the host: resource manager, application information, conditional access support, date
      and time, MMI. */
  const KNOWN: set<int> := {0x00010041, 0x00020041, 0x00030041, 0x00240041, 0x00400041}

  function Freed(table: seq<Session>, n: int): seq<Session> {
    if 1 <= n <= |table| then table[n - 1 := table[n - 1].(resource := 0)] else table
  }

  /** One TPDU was queued for slot k, a T_DATA_LAST that reads as `content`, and nothing else was queued. */
  ghost predicate Says(k: nat, content: seq<Byte>, a: Scene, b: Scene) {
    && k < |a.queues| == |b.queues| && b.queues[k] != []
    && var tpdu := b.queues[k][|b.queues[k]| - 1];
      && b.queues == a.queues[k := a.queues[k] + [tpdu]]
      && Readable(tpdu) && Parse(tpdu) == Received(k, 0xA0, content)
  }

  /** Session n, the first free one, is taken for the resource that slot k asked for, and the answer names the
      resource, whether there is one, and the session. */
  ghost predicate Takes(n: nat, answer: seq<Byte>, k: nat, spdu: seq<Byte>, a: Scene, b: Scene, reliable: bool)
    requires |spdu| == 6
  {
    && 1 <= n <= |a.table| && a.table[n - 1].resource == 0 && (forall i :: 0 <= i < n - 1 ==> a.table[i].resource != 0)
    && b.table == a.table[n - 1 := Session(k, Value(spdu[2..6]))]
    && Says(k, answer, a, b)
    && |answer| == 9 && answer[0] == 0x92 && answer[1] == 7 && answer[3..7] == spdu[2..6] && Value(answer[7..]) == n
    && answer[2] == (if b.table[n - 1].resource in KNOWN then 0 else 0xF0)
    && k < |a.marks| == |b.marks| && b.marks == a.marks[k := a.marks[k].(pending := b.marks[k].pending)]
    && (b.marks[k].pending == n || (!reliable && b.marks[k].pending == a.marks[k].pending))
  }

  /** Session n is free again, and the slot that it was on is told so. */
  ghost predicate Closes(n: int, answer: seq<Byte>, a: Scene, b: Scene)
    requires 1 <= n <= |a.table|
  {
    && b.table == Freed(a.table, n) && b.marks == a.marks
    && Says(a.table[n - 1].slot, answer, a, b)
    && |answer| == 5 && answer[..3] == [0x96, 3, 0] && Value(answer[3..]) == n
  }

  /** What an SPDU from slot k does to the sessions, and what is queued for it. */
  ghost predicate Settles(k: nat, spdu: seq<Byte>, a: Scene, b: Scene, reliable: bool)
    requires spdu != []
  {
    if |spdu| == 6 && spdu[0] == 0x91 && spdu[1] == 4 && exists i :: 0 <= i < |a.table| && a.table[i].resource == 0 then
      exists n, answer :: Takes(n, answer, k, spdu, a, b, reliable)
    else if |spdu| == 4 && spdu[0] == 0x95 && spdu[1] == 2 && 1 <= Value(spdu[2..]) <= |a.table| then
      exists answer :: Closes(Value(spdu[2..]), answer, a, b)
    else if |spdu| == 5 && spdu[0] == 0x96 && spdu[1] == 3 && spdu[2] == 0 then
      b == a.(table := Freed(a.table, Value(spdu[3..])))
    else if |spdu| == 9 && spdu[0] == 0x94 && spdu[1] == 7
        && (spdu[2] != 0 || Value(spdu[3..7]) !in KNOWN) then
      b == a.(table := Freed(a.table, Value(spdu[7..])))
    else if (|spdu| == 9 && spdu[0] == 0x94 && spdu[1] == 7) || (|spdu| > 4 && spdu[0] == 0x90) then
      b.table == a.table && b.marks == a.marks && MoreQueued(a, b)
    else
      b == a
  }

  ghost predicate MoreQueued(a: Scene, b: Scene) {
    |a.queues| == |b.queues| && forall i :: 0 <= i < |a.queues| ==> a.queues[i] <= b.queues[i]
  }

  /** Session `up`, which was to be opened when slot k answers, if it is not 0, is opened, or given up if its
      resource is not known. */
  ghost predicate ComesUp(up: int, k: nat, a: Scene, b: Scene) {
    && k < |a.marks| == |b.marks| && MoreQueued(a, b)
    && if up == 0 then b.table == a.table && b.marks == a.marks
       else
         && up == a.marks[k].pending && 1 <= up <= |a.table|
         && b.marks == a.marks[k := a.marks[k].(pending := 0)]
         && b.table == if a.table[up - 1].resource in KNOWN then a.table else Freed(a.table, up)
  }

  /** T_RCV on slot k. */
  function AskFor(k: SlotId, hasData: bool): seq<seq<Byte>> {
    if hasData then [[k, k + 1, 0x81, 1, k + 1]] else []
  }

  /** The TPDU is the last one of an SPDU. */
  predicate Completes(data: seq<Byte>) {
    |data| >= 5 && data[2] == 0xA0 && Readable(data) && Parse(data).content != []
  }

  /** The SPDU that a TPDU completes: what was gathered, and what came now. */
  function Whole(gathered: Option<seq<Byte>>, data: seq<Byte>): (spdu: seq<Byte>)
    requires Completes(data)
    ensures spdu != []
  {
    (if gathered == None then [] else gathered.value) + Parse(data).content
  }

  /** The status behind a TPDU says whether the module has data, and a reply to T_CREATE_TC makes the slot active. */
  ghost predicate Told(data: seq<Byte>, a: Scene, b: Scene)
    requires |data| >= 5
  {
    var k, n := SlotOf(data), |data|;
    && k < |a.marks|
    && b == a.(marks := a.marks[k := Mark(a.marks[k].pending, data[n - 4] == 0x80 && data[n - 3] == 2 && data[n - 1] >= 0x80,
                                          a.marks[k].active || data[2] == 0x83)])
  }

  /** A TPDU came in for its slot: an SPDU that is complete now is handled. */
  ghost predicate Heeds(data: seq<Byte>, was: seq<Was>, a: Scene, b: Scene, reliable: bool)
    requires |data| >= 5
  {
    var k := SlotOf(data);
    && k < |was|
    && exists told ::
        && Told(data, a, told)
        && if Completes(data)
           then Settles(k, Whole(was[k].recv, data), told, b, reliable)
           else b == told
  }

  /** And then what has waited for it goes on, one thing at a time: a TPDU that was queued, else the session that is to be
      opened, else the module's data are asked for. */
  ghost predicate GoesOn(data: seq<Byte>, up: int, was: seq<Was>, b: Scene, now: seq<Was>, c: Scene, reliable: bool)
    requires |data| >= 5
  {
    var k := SlotOf(data);
    && k < |was| == |now| == |b.marks| == |c.marks| == |b.queues| == |c.queues| && ComesUp(up, k, b, c)
    && (c.marks[k].pending != 0 || (reliable && c.marks[k].hasData) ==> now[k].expectAnswer)
    && (!Completes(data) && was[k].nodes != [] && reliable ==> up == 0)
    && (!Completes(data) && was[k].nodes == [] && reliable ==> up == b.marks[k].pending)
    && (!Completes(data) && was[k].nodes == [] && b.marks[k].pending == 0 ==>
         c.queues[k] == b.queues[k] + if c.marks[k].hasData then [[k, k + 1, 0x81, 1, k + 1]] else [])
  }

  /** The slots of which the driver says that a module is ready, and that none is. */
  datatype News = News(came: set<nat>, gone: set<nat>)

  lemma MoreFrom(a: Scene, b: Scene, c: Scene)
    ensures MoreQueued(a, a)
    ensures forall k, content | Says(k, content, a, b) :: MoreQueued(a, b)
    ensures forall k, content | Says(k, content, b, c) :: MoreQueued(b, c)
    ensures MoreQueued(a, b) && MoreQueued(b, c) ==> MoreQueued(a, c)
  {
  }

  lemma TakesIs(n: nat, answer: seq<Byte>, k: nat, spdu: seq<Byte>, a: Scene, taken: Scene, said: Scene, b: Scene, reliable: bool)
    requires |spdu| == 6 && FirstFree(a.table, n) && |a.table| == MAX_SESSIONS && k < |a.marks|
    requires taken == a.(table := a.table[n - 1 := Session(k, ResourceId(spdu))])
    requires answer == [ST_OPEN_SESSION_RESPONSE, 0x7, if Supported(ResourceId(spdu)) then SS_OK else SS_NOT_ALLOCATED,
                        spdu[2], spdu[3], spdu[4], spdu[5], n / 0x100, n % 0x100]
    requires Says(k, answer, taken, said) && said.table == taken.table && said.marks == taken.marks
    requires b == said.(marks := said.marks[k := said.marks[k].(pending := n)]) || (!reliable && b == said)
    ensures Takes(n, answer, k, spdu, a, b, reliable)
  {
    hide Readable, Parse, Value, ResourceId;
    SupportedIsKnown(ResourceId(spdu));
    FourBytes(spdu, 2);
    assert spdu[0..6] == spdu;
    TwoBytes(answer, 7);
  }

  lemma QueuesDiffer(a: Scene, b: Scene, k: nat)
    requires |a.queues| == |b.queues| == |a.marks| == |b.marks| && k < |a.queues| && a.table == b.table
    requires forall i :: 0 <= i < |a.marks| ==> b.marks[i] == a.marks[i]
    requires forall i :: 0 <= i < |a.queues| && i != k ==> b.queues[i] == a.queues[i]
    requires a.queues[k] <= b.queues[k]
    ensures MoreQueued(a, b) && b == a.(queues := a.queues[k := b.queues[k]])
  {
    assert b.marks == a.marks;
    assert b.queues == a.queues[k := b.queues[k]];
  }

  lemma MarksDiffer(a: Scene, b: Scene, k: nat)
    requires |a.queues| == |b.queues| == |a.marks| == |b.marks| && k < |a.queues| && a.table == b.table
    requires forall i :: 0 <= i < |a.marks| && i != k ==> b.marks[i] == a.marks[i]
    requires forall i :: 0 <= i < |a.queues| ==> b.queues[i] == a.queues[i]
    ensures b == a.(marks := a.marks[k := b.marks[k]])
  {
    assert b.queues == a.queues;
    assert b.marks == a.marks[k := b.marks[k]];
  }

  lemma UpAndOn(up: int, k: nat, a: Scene, b: Scene, c: Scene)
    requires ComesUp(up, k, a, b) && c.table == b.table && c.marks == b.marks && MoreQueued(b, c)
    ensures ComesUp(up, k, a, c) && k < |a.marks| == |c.marks|
    ensures c.marks[k].hasData == a.marks[k].hasData && c.marks[k].pending == if up != 0 then 0 else a.marks[k].pending
  {
    MoreFrom(a, b, c);
  }

  lemma UpIs(n: int, k: nat, a: Scene, pended: Scene, b: Scene)
    requires k < |a.marks| && 1 <= n == a.marks[k].pending <= |a.table|
    requires pended == a.(marks := a.marks[k := a.marks[k].(pending := 0)])
    requires if Supported(a.table[n - 1].resource)
      then MoreQueued(pended, b) && b.table == pended.table && b.marks == pended.marks
      else b == pended.(table := Freed(a.table, n))
    ensures ComesUp(n, k, a, b)
  {
    SupportedIsKnown(a.table[n - 1].resource);
    if Supported(a.table[n - 1].resource) {
      SameQueues(a, pended, b);
    } else {
      SameQueues(a, b, b);
    }
  }

  lemma SameQueues(a: Scene, b: Scene, c: Scene)
    requires a.queues == b.queues
    ensures MoreQueued(a, b) && (MoreQueued(b, c) ==> MoreQueued(a, c))
  {
  }

  lemma TwoBytes(s: seq<Byte>, i: nat)
    requires i + 2 == |s|
    ensures Value(s[i..]) == SessionNumber(s[i], s[i + 1])
  {
    ValueTwo(s[i], s[i + 1]);
    assert s[i..] == [s[i], s[i + 1]];
  }

  lemma FourBytes(s: seq<Byte>, i: nat)
    requires 2 <= i && i + 4 <= |s|
    ensures Value(s[i..i + 4]) == ResourceId(s[i - 2..i + 4])
  {
    hide Value, Wrap;
    ValueThree(s[i], s[i + 1], s[i + 2]);
    ValueStep([s[i], s[i + 1], s[i + 2]], s[i + 3]);
    assert s[i..i + 4] == [s[i], s[i + 1], s[i + 2]] + [s[i + 3]];
  }

  lemma SaysSame(k: nat, content: seq<Byte>, a: Scene, a': Scene, b: Scene)
    requires Says(k, content, a, b) && a'.queues == a.queues
    ensures Says(k, content, a', b)
  {
  }

  lemma SupportedIsKnown(resource: int)
    ensures Supported(resource) <==> resource in KNOWN
  {
  }

  lemma SaysIs(k: SlotId, content: seq<Byte>, a: Scene, b: Scene)
    requires |content| <= MAX_TPDU_DATA && k < |a.queues|
    requires b.queues == a.queues[k := a.queues[k] + [Tpdu(k, T_DATA_LAST, content)]]
    ensures Says(k, content, a, b)
  {
    hide Tpdu, Readable, Parse;
    var tpdu := Tpdu(k, T_DATA_LAST, content);
    ParseTpdu(k, T_DATA_LAST, content, []);
    assert tpdu + [] == tpdu;
  }

  class Device {
    const reliable: bool
    const slots: seq<Slot>
    var sessions: SessionTable

    constructor (slots: seq<Slot>, reliable: bool)
      requires 1 <= |slots| <= MAX_CI_SLOTS
      requires forall i :: 0 <= i < |slots| ==>
        slots[i].Valid() && slots[i].nodes == [] && slots[i].pending == 0 && slots[i].id == i && slots[i].reliable == reliable
      ensures Valid() && QuietBut(-1) && this.slots == slots && this.reliable == reliable
    {
      this.slots, this.reliable := slots, reliable;
      sessions := seq(MAX_SESSIONS, _ => Session(0, 0));
    }

    ghost function Nodes(): (r: set<Msg>)
      reads slots`nodes
      ensures forall i, m :: 0 <= i < |slots| && m in slots[i].nodes ==> m in r
    {
      set i, j | 0 <= i < |slots| && 0 <= j < |slots[i].nodes| :: slots[i].nodes[j]
    }

    ghost function Now(): (r: Scene)
      reads this, slots
      ensures r.table == sessions && |r.table| == MAX_SESSIONS
      ensures |r.queues| == |r.marks| == |slots|
      ensures forall i :: 0 <= i < |slots| ==>
        r.queues[i] == slots[i].queued && r.marks[i] == Mark(slots[i].pending, slots[i].hasData, slots[i].active)
    {
      Scene(sessions, AllQueues(slots), AllMarks(slots))
    }

    ghost predicate Valid()
      reads this, slots, Nodes()
    {
      && 1 <= |slots| <= MAX_CI_SLOTS && |sessions| == MAX_SESSIONS
      && (forall i :: 0 <= i < |slots| ==> slots[i].id == i && slots[i].reliable == reliable && slots[i].Valid())
      && Apart()
      && (forall k :: 0 <= k < MAX_SESSIONS ==> sessions[k].slot < |slots|)
      && (forall i :: 0 <= i < |slots| ==> 0 <= slots[i].pending <= MAX_SESSIONS)
    }

    ghost predicate Apart()
      reads slots`nodes
    {
      forall i, j, m :: 0 <= i < |slots| && 0 <= j < |slots| && i != j && m in slots[i].nodes ==> m !in slots[j].nodes
    }

    /** If writing works, nothing waits in a slot that expects no answer; slot e is exempt. */
    ghost predicate QuietBut(e: int)
      reads slots
    {
      forall i :: 0 <= i < |slots| && i != e && reliable && !slots[i].expectAnswer ==> slots[i].nodes == []
    }

    /** Since the slots were like this, TPDUs may have been queued and written, and that is all. */
    ghost predicate Grown(was: seq<Was>)
      reads slots
    {
      && |was| == |slots|
      && forall i :: 0 <= i < |slots| ==>
        && was[i].queued <= slots[i].queued && was[i].left <= slots[i].left
        && slots[i].recv == was[i].recv && slots[i].delivered == was[i].delivered
        && (was[i].expectAnswer ==> slots[i].expectAnswer)
        && (slots[i].expectAnswer || slots[i].nodes == was[i].nodes || !reliable)
    }

    twostate predicate NodesOldOrFresh()
      reads slots`nodes
    {
      forall m :: m in Nodes() ==> m in old(Nodes()) || fresh(m)
    }

    /** The sessions and all slots but k are as they were. */
    twostate predicate OnlySlot(k: nat)
      reads this, slots, Nodes()
    {
      && k < |slots| && sessions == old(sessions) && OldOrFresh(old(slots[k].nodes), slots[k].nodes)
      && forall i :: 0 <= i < |slots| && i != k ==>
        && slots[i].send == old(slots[i].send) && slots[i].last == old(slots[i].last) && slots[i].nodes == old(slots[i].nodes)
        && slots[i].queued == old(slots[i].queued) && slots[i].left == old(slots[i].left)
        && slots[i].recv == old(slots[i].recv) && slots[i].delivered == old(slots[i].delivered)
        && slots[i].expectAnswer == old(slots[i].expectAnswer)
        && slots[i].pending == old(slots[i].pending) && slots[i].hasData == old(slots[i].hasData) && slots[i].active == old(slots[i].active)
        && forall m :: m in slots[i].nodes ==> m.next == old(m.next)
    }

    twostate lemma ItWasOnly(k: nat)
      requires k < |slots| && sessions == old(sessions) && OldOrFresh(old(slots[k].nodes), slots[k].nodes)
      requires forall i :: 0 <= i < |slots| && i != k ==> unchanged(slots[i])
      requires forall i, j :: 0 <= i < |slots| && i != k && 0 <= j < |old(slots[i].nodes)| ==>
        old(slots[i].nodes)[j].next == old(slots[i].nodes[j].next)
      requires old(slots[k].queued) <= slots[k].queued && old(slots[k].left) <= slots[k].left
      requires slots[k].recv == old(slots[k].recv) && slots[k].delivered == old(slots[k].delivered)
      requires slots[k].pending == old(slots[k].pending) && slots[k].hasData == old(slots[k].hasData) && slots[k].active == old(slots[k].active)
      requires old(slots[k].expectAnswer) ==> slots[k].expectAnswer
      ensures OnlySlot(k) && OnlySent(k)
    {
    }

    /** Nothing but queueing and writing happened on slot k. */
    twostate predicate OnlySent(k: nat)
      reads slots
    {
      && k < |slots| && old(slots[k].queued) <= slots[k].queued && old(slots[k].left) <= slots[k].left
      && slots[k].recv == old(slots[k].recv) && slots[k].delivered == old(slots[k].delivered)
      && slots[k].pending == old(slots[k].pending) && slots[k].hasData == old(slots[k].hasData) && slots[k].active == old(slots[k].active)
      && (old(slots[k].expectAnswer) ==> slots[k].expectAnswer)
    }

    lemma Separate(k: nat)
      requires Valid() && k < |slots|
      ensures slots[k].Valid() && slots[k].id == k && slots[k].reliable == reliable
      ensures forall i :: 0 <= i < |slots| && i != k ==> slots[i] != slots[k]
      ensures forall i, j :: 0 <= i < |slots| && i != k && 0 <= j < |slots[i].nodes| ==> slots[i].nodes[j] !in slots[k].nodes
    {
      Distinct();
    }

    twostate lemma StillValid(k: nat)
      requires old(Valid()) && OnlySlot(k) && slots[k].Valid() && slots[k].pending == old(slots[k].pending)
      ensures Valid() && NodesOldOrFresh()
    {
      forall i | 0 <= i < |slots| ensures slots[i].Valid() {
        assert old(slots[i].Valid());
      }
      forall i, j, m | 0 <= i < |slots| && 0 <= j < |slots| && i != j && m in slots[i].nodes ensures m !in slots[j].nodes {
        assert old(Apart());
      }
      forall m | m in Nodes() ensures m in old(Nodes()) || fresh(m) {
        var i, j :| 0 <= i < |slots| && 0 <= j < |slots[i].nodes| && slots[i].nodes[j] == m;
        if i == k && !fresh(m) {
          assert m in old(slots[k].nodes);
        }
      }
    }

    twostate lemma OnlyQueued(k: nat)
      requires OnlySlot(k) && OnlySent(k)
      ensures MoreQueued(old(Now()), Now())
      ensures Now() == old(Now()).(queues := old(Now()).queues[k := slots[k].queued])
    {
      QueuesDiffer(old(Now()), Now(), k);
    }

    twostate lemma StillGrown(was: seq<Was>)
      requires old(Grown(was))
      requires exists k: nat :: OnlySlot(k) && OnlySent(k) && (slots[k].expectAnswer || slots[k].nodes == old(slots[k].nodes) || !reliable)
      ensures Grown(was)
    {
    }

    twostate lemma StillQuiet(e: int)
      requires old(QuietBut(e))
      requires exists k: nat :: OnlySlot(k) && (k != e && reliable && !slots[k].expectAnswer ==> slots[k].nodes == [])
      ensures QuietBut(e)
    {
    }

    lemma SentQuietly(k: nat, e: int)
      requires QuietBut(e) && k < |slots|
      ensures k != e && reliable && !slots[k].expectAnswer ==> slots[k].nodes == []
    {
    }

    /** TPDUSend on slot k. */
    method Send(k: nat, tag: Byte, content: seq<Byte>, ghost e: int, ghost was: seq<Was>) returns (r: int)
      requires Valid() && QuietBut(e) && Grown(was) && k < |slots| && |content| <= MAX_TPDU_DATA && (HasReason(tag) ==> content != [])
      modifies slots, Nodes()
      ensures Now() == old(Now()).(queues := old(Now()).queues[k := old(slots[k].queued) + [Tpdu(k, tag, content)]])
      ensures reliable ==> r == 0 && slots[k].expectAnswer
      ensures Valid() && QuietBut(e) && Grown(was) && NodesOldOrFresh()
    {
      hide Slot.Valid, Valid, QuietBut, Grown, Now, MoreQueued, OnlySlot, OnlySent;
      Separate(k);
      SentQuietly(k, e);
      r := slots[k].TpduSend(tag, content);
      ItWasOnly(k);
      OnlyQueued(k);
      StillValid(k);
      StillGrown(was);
      StillQuiet(e);
    }

    /** TPDUSend of a whole SPDU of the session layer. */
    method Say(k: nat, content: seq<Byte>, ghost e: int, ghost was: seq<Was>) returns (r: int)
      requires Valid() && QuietBut(e) && Grown(was) && k < |slots| && |content| <= MAX_TPDU_DATA
      modifies slots, Nodes()
      ensures Says(k, content, old(Now()), Now()) && Now().table == old(Now()).table && Now().marks == old(Now()).marks
      ensures reliable ==> r == 0 && slots[k].expectAnswer
      ensures Valid() && QuietBut(e) && Grown(was) && NodesOldOrFresh()
    {
      hide Valid, QuietBut, Grown, Slot.Valid, Tpdu, Says, Now;
      ValidFacts();
      r := Send(k, T_DATA_LAST, content, e, was);
      SaysIs(k, content, old(Now()), Now());
    }

    /** SPDUSend on session n: the SPDU is the session header and the data. */
    method SpduSend(n: nat, data: seq<Byte>, ghost e: int, ghost was: seq<Was>) returns (r: int, k: SlotId)
      requires Valid() && QuietBut(e) && Grown(was) && 1 <= n <= MAX_SESSIONS
      modifies slots, Nodes()
      ensures reliable ==> r == 0
      ensures k == sessions[n - 1].slot < |slots|
      ensures slots[k].queued <= old(slots[k].queued) + Tpdus(k, Fragments(Spdu(n, data)))
      ensures r == 0 ==> slots[k].queued == old(slots[k].queued) + Tpdus(k, Fragments(Spdu(n, data)))
      ensures MoreQueued(old(Now()), Now()) && Now().table == old(Now()).table && Now().marks == old(Now()).marks
      ensures Valid() && QuietBut(e) && Grown(was) && NodesOldOrFresh()
    {
      hide Valid, QuietBut, Grown, Slot.Valid, Fragments, Tpdus, Spdu, Now, MoreQueued;
      ValidFacts();
      k := sessions[n - 1].slot;
      SpduReads(n, data);
      r := SendOn(k, Spdu(n, data), e, was);
    }

    method SendOn(k: SlotId, spdu: seq<Byte>, ghost e: int, ghost was: seq<Was>) returns (r: int)
      requires Valid() && QuietBut(e) && Grown(was) && k < |slots| && spdu != []
      modifies slots, Nodes()
      ensures reliable ==> r == 0
      ensures slots[k].queued <= old(slots[k].queued) + Tpdus(k, Fragments(spdu))
      ensures r == 0 ==> slots[k].queued == old(slots[k].queued) + Tpdus(k, Fragments(spdu))
      ensures MoreQueued(old(Now()), Now()) && Now().table == old(Now()).table && Now().marks == old(Now()).marks
      ensures Valid() && QuietBut(e) && Grown(was) && NodesOldOrFresh()
    {
      hide Slot.Valid, Valid, QuietBut, Grown, Fragments, Tpdus, Now, MoreQueued, OnlySlot, OnlySent;
      Separate(k);
      SentQuietly(k, e);
      r := slots[k].SendSpdu(spdu);
      ItWasOnly(k);
      OnlyQueued(k);
      StillValid(k);
      StillGrown(was);
      StillQuiet(e);
    }

    /** SessionSendClose: the module is asked to close the session. */
    method SessionSendClose(n: nat, ghost e: int, ghost was: seq<Was>)
      requires Valid() && QuietBut(e) && Grown(was) && 1 <= n <= MAX_SESSIONS
      modifies slots, Nodes()
      ensures Says(sessions[n - 1].slot, [0x95, 2, n / 0x100, n % 0x100], old(Now()), Now())
      ensures Now().table == old(Now()).table && Now().marks == old(Now()).marks
      ensures Valid() && QuietBut(e) && Grown(was) && NodesOldOrFresh()
    {
      hide Valid, QuietBut, Grown, Slot.Valid, Now, Says;
      ValidFacts();
      var r := Say(sessions[n - 1].slot, [ST_CLOSE_SESSION_REQUEST, 0x2, n / 0x100, n % 0x100], e, was);
    }

    /** The applications on top of the session layer, which may send on any session or ask to close it. */
    method Applications(ghost e: int, ghost was: seq<Was>)
      requires Valid() && QuietBut(e) && Grown(was)
      modifies slots, Nodes()
      ensures MoreQueued(old(Now()), Now()) && Now().table == old(Now()).table && Now().marks == old(Now()).marks
      ensures Valid() && QuietBut(e) && Grown(was) && NodesOldOrFresh()
    {
      hide Valid, QuietBut, Grown, Fragments, Tpdus, Now, Says, MoreQueued;
      var rounds: nat :| true;
      var i := 0;
      ghost var before := Now();
      MoreFrom(before, before, before);
      while i < rounds
        invariant 0 <= i <= rounds && Valid() && QuietBut(e) && Grown(was) && NodesOldOrFresh()
        invariant MoreQueued(before, Now()) && Now().table == before.table && Now().marks == before.marks
      {
        ghost var between := Now();
        var n: nat :| 1 <= n <= MAX_SESSIONS;
        if * {
          SessionSendClose(n, e, was);
        } else {
          var data: seq<Byte> :| true;
          var r, k := SpduSend(n, data, e, was);
        }
        MoreFrom(before, between, Now());
        i := i + 1;
      }
    }

    method FindFree() returns (n: nat)
      requires |sessions| == MAX_SESSIONS
      ensures n > MAX_SESSIONS <==> forall i :: 0 <= i < MAX_SESSIONS ==> sessions[i].resource != 0
      ensures n <= MAX_SESSIONS ==> FirstFree(sessions, n)
    {
      n := 1;
      while n <= MAX_SESSIONS && sessions[n - 1].resource != 0
        invariant 1 <= n <= MAX_SESSIONS + 1
        invariant forall i :: 0 <= i < n - 1 ==> sessions[i].resource != 0
      {
        n := n + 1;
      }
    }

    method SetSession(n: nat, session: Session, ghost e: int)
      requires Valid() && QuietBut(e) && 1 <= n <= MAX_SESSIONS && session.slot < |slots|
      modifies `sessions
      ensures Valid() && QuietBut(e) && sessions == old(sessions)[n - 1 := session]
      ensures Now() == old(Now()).(table := sessions)
    {
      hide Slot.Valid;
      sessions := sessions[n - 1 := session];
    }

    method SetPending(k: nat, n: int, ghost e: int, ghost was: seq<Was>)
      requires Valid() && QuietBut(e) && Grown(was) && k < |slots| && 0 <= n <= MAX_SESSIONS
      modifies slots`pending
      ensures Now() == old(Now()).(marks := old(Now()).marks[k := old(Now()).marks[k].(pending := n)])
      ensures Valid() && QuietBut(e) && Grown(was)
    {
      hide Slot.Valid, Now;
      Distinct();
      slots[k].pending := n;
      OnlyMarked(k);
    }

    /** SessionOpen: the first free session is taken, the answer is queued, and if that worked the
        session is to be opened when the module answers.  Without a free session nothing happens. */
    method SessionOpen(k: nat, spdu: seq<Byte>, ghost e: int, ghost was: seq<Was>)
      requires Valid() && QuietBut(e) && Grown(was) && k < |slots| && |spdu| == 6
      modifies this`sessions, slots, Nodes()
      ensures if forall i :: 0 <= i < MAX_SESSIONS ==> old(sessions)[i].resource != 0 then Now() == old(Now())
        else exists n, answer :: Takes(n, answer, k, spdu, old(Now()), Now(), reliable)
      ensures Valid() && QuietBut(e) && Grown(was) && NodesOldOrFresh()
    {
      hide Valid, QuietBut, Grown, Slot.Valid, Now, Says, Takes;
      ValidFacts();
      var n := FindFree();
      if n > MAX_SESSIONS {
        return;
      }
      var resource := ResourceId(spdu);
      var status := SS_NOT_ALLOCATED;
      if Supported(resource) {
        status := SS_OK;
      }
      var response := [ST_OPEN_SESSION_RESPONSE, 0x7, status, spdu[2], spdu[3], spdu[4], spdu[5], n / 0x100, n % 0x100];
      SetSession(n, Session(k, resource), e);
      ghost var taken := Now();
      var r := Say(k, response, e, was);
      ghost var said := Now();
      if r == 0 {
        SetPending(k, n, e, was);
      }
      TakesIs(n, response, k, spdu, old(Now()), taken, said, Now(), reliable);
    }

    lemma ValidFacts()
      requires Valid()
      ensures |sessions| == MAX_SESSIONS && 1 <= |slots| <= MAX_CI_SLOTS
      ensures forall n :: 0 <= n < MAX_SESSIONS ==> sessions[n].slot < |slots|
    {
    }

    /** SessionOpenCb: a session for a resource that is not known is given up, the others start to talk. */
    method SessionOpenCb(k: nat, ghost e: int, ghost was: seq<Was>)
      requires Valid() && QuietBut(e) && Grown(was) && k < |slots| && 1 <= slots[k].pending <= MAX_SESSIONS
      modifies this`sessions, slots, Nodes()
      ensures ComesUp(old(slots[k].pending), k, old(Now()), Now())
      ensures Valid() && QuietBut(e) && Grown(was) && NodesOldOrFresh()
    {
      hide Valid, QuietBut, Grown, Slot.Valid, Now, MoreQueued, Supported, ComesUp;
      ValidFacts();
      var n := slots[k].pending;
      SetPending(k, 0, e, was);
      ghost var between := Now();
      if Supported(sessions[n - 1].resource) {
        Applications(e, was);
      } else {
        SetSession(n, sessions[n - 1].(resource := 0), e);
      }
      UpIs(n, k, old(Now()), between, Now());
    }

    /** SessionClose: the session is free again, and the module is told so on the session's slot. */
    method SessionClose(n: nat, ghost e: int, ghost was: seq<Was>)
      requires Valid() && QuietBut(e) && Grown(was) && 1 <= n <= MAX_SESSIONS
      modifies this`sessions, slots, Nodes()
      ensures exists answer :: Closes(n, answer, old(Now()), Now())
      ensures Valid() && QuietBut(e) && Grown(was) && NodesOldOrFresh()
    {
      hide Valid, QuietBut, Grown, Slot.Valid, Now, Says, Value;
      ValidFacts();
      SetSession(n, sessions[n - 1].(resource := 0), e);
      ghost var freed := Now();
      var response := [ST_CLOSE_SESSION_RESPONSE, 0x3, SS_OK, n / 0x100, n % 0x100];
      var r := Say(sessions[n - 1].slot, response, e, was);
      SaysSame(sessions[n - 1].slot, response, freed, old(Now()), Now());
      TwoBytes(response, 3);
      assert Closes(n, response, old(Now()), Now());
    }

    /** SPDUHandle.  What an application does with its data is its own business. */
    method SpduHandle(k: nat, spdu: seq<Byte>, ghost e: int, ghost was: seq<Was>)
      requires Valid() && QuietBut(e) && Grown(was) && k < |slots| && spdu != []
      modifies this`sessions, slots, Nodes()
      ensures Settles(k, spdu, old(Now()), Now(), reliable)
      ensures Valid() && QuietBut(e) && Grown(was) && NodesOldOrFresh()
    {
      hide Valid, QuietBut, Grown, Slot.Valid, Now, Takes, Closes, MoreQueued, Value;
      ValidFacts();
      if spdu[0] == ST_OPEN_SESSION_REQUEST {
        if |spdu| != 6 || spdu[1] != 0x4 {
          return;
        }
        SessionOpen(k, spdu, e, was);
      } else if spdu[0] == ST_CLOSE_SESSION_REQUEST {
        if |spdu| != 4 || spdu[1] != 0x2 {
          return;
        }
        var n := SessionNumber(spdu[2], spdu[3]);
        TwoBytes(spdu, 2);
        if 1 <= n <= MAX_SESSIONS {
          SessionClose(n, e, was);
        }
      } else if spdu[0] == ST_CLOSE_SESSION_RESPONSE {
        if |spdu| != 5 || spdu[1] != 0x3 {
          return;
        }
        var n := SessionNumber(spdu[3], spdu[4]);
        TwoBytes(spdu, 3);
        if spdu[2] == SS_OK && 1 <= n <= MAX_SESSIONS {
          SetSession(n, sessions[n - 1].(resource := 0), e);
        }
      } else if spdu[0] == ST_CREATE_SESSION_RESPONSE {
        if |spdu| != 9 || spdu[1] != 0x7 {
          return;
        }
        SessionCreateResponse(spdu, e, was);
      } else if spdu[0] == ST_SESSION_NUMBER {
        if |spdu| <= 4 {
          return;
        }
        MoreFrom(Now(), Now(), Now());
        var n := SessionNumber(spdu[2], spdu[3]);
        if 1 <= n <= MAX_SESSIONS {
          Applications(e, was);
        }
      }
    }

    /** SessionCreateResponse: a session that the module refused, or that is for a resource that is not known, is
        given up, the others start to talk. */
    method SessionCreateResponse(spdu: seq<Byte>, ghost e: int, ghost was: seq<Was>)
      requires Valid() && QuietBut(e) && Grown(was) && |spdu| == 9
      modifies this`sessions, slots, Nodes()
      ensures if spdu[2] != 0 || Value(spdu[3..7]) !in KNOWN
        then Now() == old(Now()).(table := Freed(old(sessions), Value(spdu[7..])))
        else Now().table == old(Now()).table && Now().marks == old(Now()).marks && MoreQueued(old(Now()), Now())
      ensures Valid() && QuietBut(e) && Grown(was) && NodesOldOrFresh()
    {
      hide Valid, QuietBut, Grown, Slot.Valid, Now, MoreQueued, Value, ResourceId;
      ValidFacts();
      MoreFrom(Now(), Now(), Now());
      SupportedIsKnown(ResourceId(spdu[1..7]));
      FourBytes(spdu, 3);
      TwoBytes(spdu, 7);
      var n := SessionNumber(spdu[7], spdu[8]);
      if n < 1 || n > MAX_SESSIONS {
        return;
      }
      if spdu[2] != SS_OK || !Supported(ResourceId(spdu[1..7])) {
        SetSession(n, sessions[n - 1].(resource := 0), e);
        return;
      }
      Applications(e, was);
    }

    lemma GrownNow(was: seq<Was>)
      requires was == AllWas(slots)
      ensures Grown(was)
    {
    }

    twostate lemma OnlyMarked(k: nat)
      requires k < |slots| && sessions == old(sessions)
      requires forall i :: 0 <= i < |slots| ==> slots[i].queued == old(slots[i].queued)
      requires forall i :: 0 <= i < |slots| && i != k ==>
        slots[i].pending == old(slots[i].pending) && slots[i].hasData == old(slots[i].hasData) && slots[i].active == old(slots[i].active)
      ensures Now() == old(Now()).(marks := old(Now()).marks[k := Mark(slots[k].pending, slots[k].hasData, slots[k].active)])
    {
      MarksDiffer(old(Now()), Now(), k);
    }

    /** An answer of slot s came in. */
    method Answered(s: Slot, ghost k: nat, ghost was: seq<Was>)
      requires Valid() && QuietBut(-1) && was == AllWas(slots) && k < |slots| && s == slots[k]
      modifies s`expectAnswer
      ensures Now() == old(Now()) && s.nodes == old(s.nodes) && !s.expectAnswer
      ensures Grown(was[k := was[k].(expectAnswer := false)])
      ensures Valid() && QuietBut(k)
    {
      hide Slot.Valid, AllQueues, AllMarks, AllWas;
      s.expectAnswer := false;
    }

    method SetHasData(s: Slot, hasData: bool, ghost k: nat, ghost was: seq<Was>)
      requires Valid() && QuietBut(k) && Grown(was) && k < |slots| && s == slots[k]
      modifies s`hasData
      ensures Now() == old(Now()).(marks := old(Now()).marks[k := old(Now()).marks[k].(hasData := hasData)])
      ensures Valid() && QuietBut(k) && Grown(was)
    {
      hide Slot.Valid, Now;
      Distinct();
      s.hasData := hasData;
      OnlyMarked(k);
    }

    /** The slot has taken this in so far. */
    method Note(s: Slot, recv: Option<seq<Byte>>, ghost delivered: seq<seq<Byte>>, ghost k: nat, ghost e: int, ghost was: seq<Was>)
      requires Valid() && QuietBut(e) && Grown(was) && k < |slots| && s == slots[k]
      modifies s`recv, s`delivered
      ensures Now() == old(Now())
      ensures Valid() && QuietBut(e) && s.recv == recv && s.delivered == delivered
      ensures Grown(was[k := was[k].(recv := recv, delivered := delivered)])
    {
      hide Slot.Valid, AllQueues, AllMarks;
      s.recv := recv;
      s.delivered := delivered;
    }

    method Activate(s: Slot, ghost k: nat, ghost was: seq<Was>)
      requires Valid() && QuietBut(k) && Grown(was) && k < |slots| && s == slots[k]
      modifies s`active
      ensures Now() == old(Now()).(marks := old(Now()).marks[k := old(Now()).marks[k].(active := true)])
      ensures Valid() && QuietBut(k) && Grown(was)
    {
      hide Slot.Valid, Now;
      Distinct();
      s.active := true;
      OnlyMarked(k);
    }

    lemma GrownRx(was: seq<Was>, k: nat)
      requires Grown(was) && k < |slots|
      ensures |was| == |slots| && slots[k].recv == was[k].recv && slots[k].delivered == was[k].delivered
    {
    }

    /** The SPDU is complete. */
    method Deliver(k: nat, spdu: seq<Byte>, ghost was: seq<Was>)
      requires Valid() && QuietBut(k) && Grown(was) && k < |slots| == |was| && spdu != []
      modifies this`sessions, slots, Nodes()
      ensures Grown(was[k := was[k].(recv := None, delivered := was[k].delivered + [spdu])])
      ensures Settles(k, spdu, old(Now()), Now(), reliable)
      ensures Valid() && QuietBut(k) && NodesOldOrFresh()
    {
      hide Valid, QuietBut, Grown, Slot.Valid, Now, Settles;
      GrownRx(was, k);
      ghost var delivered := was[k].delivered + [spdu];
      Note(slots[k], Some(spdu), delivered, k, k, was);
      ghost var was1 := was[k := was[k].(recv := Some(spdu), delivered := delivered)];
      SpduHandle(k, spdu, k, was1);
      Note(slots[k], None, delivered, k, k, was1);
      assert was1[k := was1[k].(recv := None, delivered := delivered)] == was[k := was[k].(recv := None, delivered := delivered)];
    }

    /** The data part of TPDURecv: session bytes are gathered until the last TPDU of an SPDU came. */
    method TakeData(k: nat, data: seq<Byte>, ghost was: seq<Was>)
      requires Valid() && QuietBut(k) && Grown(was) && k < |slots| == |was| && Readable(data) && IsData(data[2])
      modifies this`sessions, slots, Nodes()
      ensures var rx := Accept(Rx(was[k].recv, was[k].delivered), Frag(data[2], Parse(data).content));
        Grown(was[k := was[k].(recv := rx.part, delivered := rx.delivered)])
      ensures if Completes(data)
        then Settles(k, Whole(old(slots[k].recv), data), old(Now()), Now(), reliable)
        else Now() == old(Now()) && slots[k].nodes == old(slots[k].nodes) && slots[k].expectAnswer == old(slots[k].expectAnswer)
      ensures Valid() && QuietBut(k) && NodesOldOrFresh()
    {
      hide Valid, QuietBut, Grown, Slot.Valid, Now, Settles;
      GrownRx(was, k);
      var session := SessionBytes(data);
      if session == [] {
        assert was[k := was[k].(recv := was[k].recv, delivered := was[k].delivered)] == was;
        return;
      }
      var s := slots[k];
      var part := if s.recv == None then [] else s.recv.value;
      part := part + session;
      if data[2] == T_DATA_LAST {
        Deliver(k, part, was);
      } else {
        Note(s, Some(part), s.delivered, k, k, was);
      }
    }

    method SessionBytes(data: seq<Byte>) returns (session: seq<Byte>)
      requires Readable(data)
      ensures session == Parse(data).content
    {
      hide HasField, Parsed;
      session := [];
      var length, p := GetLength(data, 3);
      if length > 1 {
        session := data[p + 1..p + length];
      }
    }

    /** The next TPDU that waits is written. */
    method WriteNext(k: nat, ghost was: seq<Was>)
      requires Valid() && QuietBut(k) && Grown(was) && k < |slots| && !slots[k].expectAnswer
      modifies slots
      ensures Now() == old(Now())
      ensures if old(slots[k].nodes) == [] then !slots[k].expectAnswer && slots[k].nodes == [] else reliable ==> slots[k].expectAnswer
      ensures Valid() && QuietBut(-1) && Grown(was) && NodesOldOrFresh()
    {
      hide Slot.Valid, Valid, QuietBut, Grown, Now, MoreQueued, OnlySlot, OnlySent;
      Separate(k);
      if slots[k].send != null {
        var r := slots[k].TpduWrite();
        ItWasOnly(k);
        OnlyQueued(k);
        StillValid(k);
        StillGrown(was);
        StillQuiet(k);
      } else {
        NothingWaits(slots[k]);
      }
      QuietAgain(k);
    }

    lemma QuietAgain(k: nat)
      requires QuietBut(k) && k < |slots| && (reliable && !slots[k].expectAnswer ==> slots[k].nodes == [])
      ensures QuietBut(-1)
    {
    }

    /** TPDURecv.  The slot takes in what the TPDU carries, the other slots' receive sides are left alone,
        and then what has waited for the answer goes on: the next TPDU, a session to be opened, or the
        module's data are asked for. */
    method TpduRecv(data: seq<Byte>) returns (r: int, ghost mid: Scene, ghost up: int)
      requires Valid() && QuietBut(-1)
      requires |data| >= 5 && IsData(data[2]) ==> Readable(data)
      modifies this`sessions, slots, Nodes()
      ensures r == if |data| >= 5 && SlotOf(data) < |slots| then 0 else -1
      ensures r == 0 ==> Grown(Taken(old(AllWas(slots)), data))
      ensures r == 0 ==> Heeds(data, old(AllWas(slots)), old(Now()), mid, reliable)
      ensures r == 0 ==> GoesOn(data, up, old(AllWas(slots)), mid, AllWas(slots), Now(), reliable)
      ensures r != 0 ==> Now() == old(Now()) && Grown(old(AllWas(slots)))
      ensures Valid() && QuietBut(-1) && NodesOldOrFresh()
    {
      hide Valid, QuietBut, Grown, Slot.Valid, Parse, Readable, Completes, Taken, Heeds, GoesOn, ComesUp, Now, Idle;
      ValidFacts();
      ghost var was := AllWas(slots);
      GrownNow(was);
      mid, up := Now(), 0;
      if |data| < 5 {
        return -1, mid, up;
      }
      var k, tag := SlotOf(data), data[2];
      if k >= |slots| {
        return -1, mid, up;
      }
      TakeIn(k, data, was);
      mid := Now();
      ghost var idle := Idle(k);
      up := GoOn(k, Taken(was, data));
      ItGoesOn(k, data, up, was, mid, AllWas(slots), Now(), idle);
      r := 0;
    }

    lemma ItGoesOn(k: nat, data: seq<Byte>, up: int, was: seq<Was>, b: Scene, now: seq<Was>, c: Scene, idle: bool)
      requires |data| >= 5 && k == SlotOf(data) < |slots| <= MAX_CI_SLOTS && |was| == |now| == |slots| == |b.queues| == |b.marks|
      requires now == AllWas(slots) && c == Now() && ComesUp(up, k, b, c)
      requires !Completes(data) ==> (idle <==> was[k].nodes == [])
      requires slots[k].pending != 0 || (reliable && slots[k].hasData) ==> slots[k].expectAnswer
      requires reliable && up != 0 ==> idle
      requires reliable && idle && b.marks[k].pending != 0 ==> up != 0
      requires idle && b.marks[k].pending == 0 ==> slots[k].queued == b.queues[k] + AskFor(k, slots[k].hasData)
      ensures GoesOn(data, up, was, b, now, c, reliable)
    {
      hide AllWas, Completes, MoreQueued;
    }

    /** The answer of slot k, the status behind it, and what it carries. */
    method TakeIn(k: nat, data: seq<Byte>, ghost was: seq<Was>)
      requires Valid() && QuietBut(-1) && |data| >= 5 && k == SlotOf(data) < |slots| && was == AllWas(slots)
      requires IsData(data[2]) ==> Readable(data)
      modifies this`sessions, slots, Nodes()
      ensures Grown(Taken(was, data))
      ensures Heeds(data, was, old(Now()), Now(), reliable)
      ensures !Completes(data) ==> (Idle(k) <==> was[k].nodes == [])
      ensures Valid() && QuietBut(k) && NodesOldOrFresh()
    {
      hide Valid, QuietBut, Grown, Slot.Valid, Parse, Readable, Settles, Heeds, Now, Taken, AllWas;
      ValidFacts();
      var s, tag := slots[k], data[2];
      Status(k, data, was);
      ghost var was1 := was[k := was[k].(expectAnswer := false)];
      TakenIs(was, data);
      ghost var told := Now();
      if tag == T_DATA_LAST || tag == T_DATA_MORE {
        TakeData(k, data, was1);
      }
      HeedsIs(k, data, was, old(Now()), told, Now());
    }

    method Status(k: nat, data: seq<Byte>, ghost was: seq<Was>)
      requires Valid() && QuietBut(-1) && |data| >= 5 && k == SlotOf(data) < |slots| && was == AllWas(slots)
      modifies slots
      ensures Told(data, old(Now()), Now())
      ensures Grown(was[k := was[k].(expectAnswer := false)])
      ensures !slots[k].expectAnswer && slots[k].nodes == was[k].nodes && slots[k].recv == was[k].recv
      ensures Valid() && QuietBut(k) && NodesOldOrFresh()
    {
      hide Valid, QuietBut, Grown, Slot.Valid, Now;
      ValidFacts();
      GrownNow(was);
      var n, s := |data|, slots[k];
      ghost var was1 := was[k := was[k].(expectAnswer := false)];
      Answered(s, k, was);
      SetHasData(s, data[n - 4] == T_SB && data[n - 3] == 2 && data[n - 1] >= DATA_INDICATOR, k, was1);
      if data[2] == T_CTC_REPLY {
        Activate(s, k, was1);
      }
    }

    lemma HeedsIs(k: nat, data: seq<Byte>, was: seq<Was>, a: Scene, told: Scene, b: Scene)
      requires |data| >= 5 && k == SlotOf(data) < |was| == |a.marks| && Told(data, a, told)
      requires if Completes(data)
        then Settles(k, Whole(was[k].recv, data), told, b, reliable)
        else b == told
      ensures Heeds(data, was, a, b, reliable)
    {
      hide Settles, Completes, Parse;
    }

    /** What has waited for the answer of slot k goes on: the next TPDU, else the session that is to be opened,
        else the module is asked for its data.  `up` is that session, or 0. */
    method GoOn(k: nat, ghost was: seq<Was>) returns (ghost up: int)
      requires Valid() && QuietBut(k) && Grown(was) && k < |slots|
      modifies this`sessions, slots, Nodes()
      ensures ComesUp(up, k, old(Now()), Now())
      ensures slots[k].pending != 0 || (reliable && slots[k].hasData) ==> slots[k].expectAnswer
      ensures reliable && up != 0 ==> old(Idle(k))
      ensures reliable && old(Idle(k)) && old(slots[k].pending) != 0 ==> up != 0
      ensures old(Idle(k)) && old(slots[k].pending) == 0 ==> slots[k].queued == old(slots[k].queued) + AskFor(k, slots[k].hasData)
      ensures Valid() && QuietBut(-1) && Grown(was) && NodesOldOrFresh()
    {
      hide Valid, QuietBut, Grown, Slot.Valid, Now, MoreQueued, ComesUp;
      ValidFacts();
      ghost var before := Now();
      if !slots[k].expectAnswer {
        WriteNext(k, was);
      } else {
        AnswerComes(k);
      }
      up := OpenPending(k, was);
      ghost var between := Now();
      AskForData(k, was);
      UpAndOn(up, k, before, between, Now());
    }

    ghost predicate Idle(k: nat)
      requires k < |slots|
      reads slots[k]
    {
      !slots[k].expectAnswer && slots[k].nodes == []
    }

    method OpenPending(k: nat, ghost was: seq<Was>) returns (ghost up: int)
      requires Valid() && QuietBut(-1) && Grown(was) && k < |slots|
      modifies this`sessions, slots, Nodes()
      ensures ComesUp(up, k, old(Now()), Now())
      ensures up == if old(slots[k].expectAnswer) then 0 else old(slots[k].pending)
      ensures up == 0 ==> Now() == old(Now()) && slots[k].expectAnswer == old(slots[k].expectAnswer)
      ensures Valid() && QuietBut(-1) && Grown(was) && NodesOldOrFresh()
    {
      hide Valid, QuietBut, Grown, Slot.Valid, Now, MoreQueued, Freed;
      ValidFacts();
      up := 0;
      SameQueues(Now(), Now(), Now());
      if !slots[k].expectAnswer && slots[k].pending != 0 {
        PendingFacts(k);
        up := slots[k].pending;
        SessionOpenCb(k, -1, was);
      }
    }

    method AskForData(k: nat, ghost was: seq<Was>)
      requires Valid() && QuietBut(-1) && Grown(was) && k < |slots|
      modifies slots, Nodes()
      ensures Now().table == old(Now()).table && Now().marks == old(Now()).marks && MoreQueued(old(Now()), Now())
      ensures old(slots[k].expectAnswer) || (reliable && slots[k].hasData) ==> slots[k].expectAnswer
      ensures !old(slots[k].expectAnswer) ==> slots[k].queued == old(slots[k].queued) + AskFor(k, slots[k].hasData)
      ensures Valid() && QuietBut(-1) && Grown(was) && NodesOldOrFresh()
    {
      hide Valid, QuietBut, Grown, Slot.Valid, Now;
      ValidFacts();
      if !slots[k].expectAnswer && slots[k].hasData {
        var r := Send(k, T_RCV, [], -1, was);
      }
    }

    lemma AnswerComes(k: nat)
      requires QuietBut(k) && k < |slots| && slots[k].expectAnswer
      ensures QuietBut(-1)
    {
    }

    lemma PendingFacts(k: nat)
      requires Valid() && k < |slots|
      ensures 0 <= slots[k].pending <= MAX_SESSIONS
    {
    }

    /** ResetSlot: the slot's queues are emptied and its sessions are closed. */
    method ResetSlot(k: nat, ghost e: int)
      requires Valid() && QuietBut(e) && k < |slots|
      modifies this`sessions, slots
      ensures slots[k].nodes == [] && !slots[k].expectAnswer && slots[k].recv == None
      ensures Polls({k}, old(Now()), Now()) && OthersWait(k)
      ensures Since(old(AllWas(slots)), AllWas(slots), {k})
      ensures Valid() && QuietBut(e) && NodesOldOrFresh()
    {
      hide Valid, QuietBut, Slot.Valid, Since, AllWas, Now, OthersWait, Polls;
      ClearSlot(k, e);
      ghost var cleared := Now();
      CloseAll(k, e);
      ResetIs(k, old(Now()), cleared, Now());
    }

    /** Of the slots but k none was made active, and none that expected an answer does not any more. */
    twostate predicate OthersWait(k: nat)
      reads slots
    {
      forall i :: 0 <= i < |slots| && i != k ==>
        slots[i].active == old(slots[i].active) && (old(slots[i].expectAnswer) ==> slots[i].expectAnswer)
    }

    /** The loop of ResetSlot over the sessions. */
    method CloseAll(k: nat, ghost e: int)
      requires Valid() && QuietBut(e)
      modifies `sessions
      ensures forall n :: 0 <= n < MAX_SESSIONS ==>
        sessions[n] == if old(sessions)[n].slot == k then Session(k, 0) else old(sessions)[n]
      ensures Now() == old(Now()).(table := sessions)
      ensures Valid() && QuietBut(e)
    {
      hide Valid, QuietBut, Now;
      ValidFacts();
      var n := 1;
      while n <= MAX_SESSIONS
        invariant 1 <= n <= MAX_SESSIONS + 1 && Valid() && QuietBut(e) && |sessions| == MAX_SESSIONS
        invariant Now() == old(Now()).(table := sessions)
        invariant forall i :: 0 <= i < MAX_SESSIONS ==>
          sessions[i] == if i < n - 1 && old(sessions)[i].slot == k then Session(k, 0) else old(sessions)[i]
      {
        if sessions[n - 1].resource != 0 && sessions[n - 1].slot == k {
          SetSession(n, sessions[n - 1].(resource := 0), e);
        }
        n := n + 1;
      }
    }

    method ClearSlot(k: nat, ghost e: int)
      requires Valid() && QuietBut(e) && k < |slots|
      modifies slots
      ensures slots[k].nodes == [] && !slots[k].expectAnswer && slots[k].recv == None
      ensures Clears(k, old(Now()), Now()) && OthersWait(k)
      ensures Since(old(AllWas(slots)), AllWas(slots), {k})
      ensures Valid() && QuietBut(e) && NodesOldOrFresh()
    {
      hide Valid, QuietBut, NodesOldOrFresh, Now, Clears, Since, OthersWait, AllWas;
      Distinct();
      ClearOne(k, e);
      OthersSame(k);
      ClearedScene(k);
      ClearedSince(k);
    }

    twostate lemma OthersSame(k: nat)
      requires forall i :: 0 <= i < |slots| && i != k ==> unchanged(slots[i])
      ensures OthersWait(k)
    {
    }

    twostate lemma ClearedScene(k: nat)
      requires k < |slots| && sessions == old(sessions) && forall i :: 0 <= i < |slots| && i != k ==> unchanged(slots[i])
      requires slots[k].pending == old(slots[k].pending) && slots[k].hasData == old(slots[k].hasData) && !slots[k].active
      ensures Clears(k, old(Now()), Now())
    {
      ClearsIs(k, old(Now()), Now());
    }

    twostate lemma ClearedSince(k: nat)
      requires k < |slots| && forall i :: 0 <= i < |slots| && i != k ==> unchanged(slots[i])
      requires slots[k].left == old(slots[k].left) && slots[k].delivered == old(slots[k].delivered) && slots[k].recv == None
      ensures Since(old(AllWas(slots)), AllWas(slots), {k})
    {
    }

    lemma Distinct()
      requires Valid()
      ensures forall i, j :: 0 <= i < j < |slots| ==> slots[i] != slots[j]
    {
      forall i, j | 0 <= i < j < |slots| ensures slots[i] != slots[j] {
        assert slots[i].id != slots[j].id;
      }
    }

    method ClearOne(k: nat, ghost e: int)
      requires Valid() && QuietBut(e) && k < |slots|
      modifies slots[k]
      ensures slots[k].nodes == [] && !slots[k].expectAnswer && !slots[k].active && slots[k].recv == None
      ensures slots[k].left == old(slots[k].left) && slots[k].delivered == old(slots[k].delivered)
      ensures slots[k].pending == old(slots[k].pending) && slots[k].hasData == old(slots[k].hasData)
      ensures Valid() && QuietBut(e) && NodesOldOrFresh()
    {
      hide Slot.Valid;
      slots[k].Clear();
      StillValid(k);
    }

    lemma GrownSince(before: seq<Was>)
      requires Grown(before)
      ensures Since(before, AllWas(slots), {})
    {
    }

    /** A slot with a module is active or waits for one to answer; a slot without one is not active. */
    ghost predicate Tended(news: News)
      reads slots
    {
      && (forall i :: i in news.came && i < |slots| && reliable ==> slots[i].active || slots[i].expectAnswer)
      && (forall i :: i in news.gone && i < |slots| ==> !slots[i].active)
    }

    /** The first n slots, if active, expect an answer. */
    ghost predicate Asked(n: nat)
      reads slots
    {
      forall i :: 0 <= i < n && i < |slots| && reliable && slots[i].active ==> slots[i].expectAnswer
    }

    twostate lemma StillTended(news: News)
      requires old(Tended(news))
      requires exists k: nat :: OthersWait(k) && (k >= |slots| || (k !in news.came && k !in news.gone))
      ensures Tended(news)
    {
    }

    twostate lemma StillAsked(n: nat)
      requires old(Asked(n)) && OthersWait(|slots|)
      ensures Asked(n)
    {
    }

    /** No slot is made active, and if writing works, none that expected an answer does not any more. */
    twostate lemma AllWait()
      requires Now().marks == old(Now()).marks && Grown(old(AllWas(slots)))
      ensures OthersWait(|slots|)
    {
      forall i | 0 <= i < |slots| ensures slots[i].active == old(slots[i].active) && (old(slots[i].expectAnswer) ==> slots[i].expectAnswer) {
        assert Now().marks[i].active == old(Now()).marks[i].active;
      }
    }

    /** en50221_Poll: slots that went are reset, slots that came are set up, applications may send, and
        slots with nothing else to wait for are polled.  `cut` are the slots that were reset, `news` what the driver
        says of the modules. */
    method Poll() returns (ghost cut: set<nat>, ghost news: News)
      requires Valid() && QuietBut(-1)
      modifies this`sessions, slots, Nodes()
      ensures Asked(|slots|) && Tended(news)
      ensures Polls(cut, old(Now()), Now())
      ensures Since(old(AllWas(slots)), AllWas(slots), cut)
      ensures Valid() && QuietBut(-1) && NodesOldOrFresh()
    {
      hide Valid, QuietBut, Grown, Slot.Valid, Since, Polls, Now, Asked, Tended, OthersWait, MoreQueued, AllWas;
      ghost var was, scene := AllWas(slots), Now();
      cut, news := LookAtAll();
      ghost var before, between := AllWas(slots), Now();
      ghost var more := SendAll(news);
      SinceThrough(was, before, AllWas(slots), cut, more);
      PollsThrough(scene, between, Now(), cut, more);
      cut := cut + more;
    }

    method SendAll(ghost news: News) returns (ghost cut: set<nat>)
      requires Valid() && QuietBut(-1) && Tended(news)
      modifies this`sessions, slots, Nodes()
      ensures Tended(news) && Asked(|slots|)
      ensures Polls(cut, old(Now()), Now())
      ensures Since(old(AllWas(slots)), AllWas(slots), cut)
      ensures Valid() && QuietBut(-1) && NodesOldOrFresh()
    {
      hide Valid, QuietBut, Grown, Slot.Valid, Since, Polls, Now, Asked, Tended, OthersWait, MoreQueued, AllWas;
      ghost var was, scene := AllWas(slots), Now();
      LetSend(news);
      ghost var before, between := AllWas(slots), Now();
      cut := AskAll(news);
      SinceThrough(was, before, AllWas(slots), {}, cut);
      PollsThrough(scene, between, Now(), {}, cut);
      assert {} + cut == cut;
    }

    /** The loop over the modules' states. */
    method LookAtAll() returns (ghost cut: set<nat>, ghost news: News)
      requires Valid() && QuietBut(-1)
      modifies this`sessions, slots, Nodes()
      ensures Tended(news)
      ensures Polls(cut, old(Now()), Now())
      ensures Since(old(AllWas(slots)), AllWas(slots), cut)
      ensures Valid() && QuietBut(-1) && NodesOldOrFresh()
    {
      hide Valid, QuietBut, Grown, Slot.Valid, Since, Polls, Now, OthersWait, AllWas, Tended;
      ghost var was, scene := AllWas(slots), Now();
      SinceNow(was);
      PollsNow(scene);
      cut, news := {}, News({}, {});
      NothingTold();
      var k := 0;
      while k < |slots|
        invariant 0 <= k <= |slots| && Valid() && QuietBut(-1) && NodesOldOrFresh()
        invariant Since(was, AllWas(slots), cut) && Polls(cut, scene, Now())
        invariant Tended(news) && forall i :: i in news.came || i in news.gone ==> i < k
      {
        ghost var before, between := AllWas(slots), Now();
        ghost var more: set<nat>;
        news, more := LookAt(k, news);
        SinceThrough(was, before, AllWas(slots), cut, more);
        PollsThrough(scene, between, Now(), cut, more);
        cut := cut + more;
        k := k + 1;
      }
    }

    lemma NothingTold()
      ensures Tended(News({}, {}))
    {
    }

    method LookAt(k: nat, ghost news0: News) returns (ghost news: News, ghost cut: set<nat>)
      requires Valid() && QuietBut(-1) && k < |slots| && Tended(news0) && k !in news0.came && k !in news0.gone
      modifies this`sessions, slots, Nodes()
      ensures news.came <= news0.came + {k} && news.gone <= news0.gone + {k} && Tended(news)
      ensures Polls(cut, old(Now()), Now())
      ensures Since(old(AllWas(slots)), AllWas(slots), cut)
      ensures Valid() && QuietBut(-1) && NodesOldOrFresh()
    {
      hide Valid, QuietBut, Grown, Slot.Valid, Since, Polls, Now, OthersWait, Tended, AllWas;
      ghost var ok: bool, ready: bool;
      ok, ready, cut := PollSlot(k);
      StillTended(news0);
      news := news0;
      if ok && ready {
        news := news0.(came := news0.came + {k});
      } else if ok {
        news := news0.(gone := news0.gone + {k});
      }
      MoreTold(k, news0, news);
    }

    lemma MoreTold(k: nat, news0: News, news: News)
      requires Tended(news0) && news.came <= news0.came + {k} && news.gone <= news0.gone + {k} && k < |slots|
      requires k in news.came && reliable ==> slots[k].active || slots[k].expectAnswer
      requires k in news.gone ==> !slots[k].active
      ensures Tended(news)
    {
    }

    /** The driver may answer, and says whether a module is ready: without one an active slot is reset, with one a slot that is not
        active and expects no answer is sent T_CREATE_TC, and else nothing happens. */
    method PollSlot(k: nat) returns (ghost ok: bool, ghost ready: bool, ghost cut: set<nat>)
      requires Valid() && QuietBut(-1) && k < |slots|
      modifies this`sessions, slots, Nodes()
      ensures Polls(cut, old(Now()), Now()) && OthersWait(k)
      ensures cut == if ok && !ready && old(slots[k].active) then {k} else {}
      ensures cut == {} ==> Starts(k, ok && ready && old(!slots[k].active && !slots[k].expectAnswer), old(Now()), Now())
      ensures if ready then ok && reliable ==> slots[k].active || slots[k].expectAnswer else ok ==> !slots[k].active
      ensures Since(old(AllWas(slots)), AllWas(slots), cut)
      ensures Valid() && QuietBut(-1) && NodesOldOrFresh()
    {
      hide Valid, QuietBut, Grown, Slot.Valid, Since, Polls, Now, OthersWait, AllWas, NodesOldOrFresh;
      ValidFacts();
      ghost var was, scene := AllWas(slots), Now();
      SinceNow(was);
      PollsNow(scene);
      GrownNow(was);
      NothingHappened();
      cut := {};
      var answered: bool, there: bool := *, *;
      ok, ready := answered, there;
      if !answered {
        return;
      }
      if !there {
        if slots[k].active {
          ResetSlot(k, -1);
          WentAway(k, scene, Now());
          cut := {k};
        }
      } else if !slots[k].active {
        if !slots[k].expectAnswer {
          var r := Send(k, T_CREATE_TC, [], -1, was);
          GrownSince(was);
          AllWait();
          KWaits(k);
          SentPolls(k, scene, Now());
        }
      }
    }

    twostate lemma NothingHappened()
      requires AllWas(slots) == old(AllWas(slots)) && Now() == old(Now())
      ensures NodesOldOrFresh() && forall k :: OthersWait(k)
    {
    }

    twostate lemma KWaits(k: nat)
      requires OthersWait(|slots|)
      ensures OthersWait(k)
    {
    }

    lemma WentAway(k: nat, a: Scene, b: Scene)
      requires k < |slots| && Polls({k}, a, b) && b == Now()
      ensures !slots[k].active
    {
    }

    /** The applications, on every session. */
    method LetSend(ghost news: News)
      requires Valid() && QuietBut(-1) && Tended(news)
      modifies slots, Nodes()
      ensures Tended(news)
      ensures Polls({}, old(Now()), Now())
      ensures Since(old(AllWas(slots)), AllWas(slots), {})
      ensures Valid() && QuietBut(-1) && NodesOldOrFresh()
    {
      hide Valid, QuietBut, Grown, Slot.Valid, Since, Polls, Now, OthersWait, AllWas, Tended, MoreQueued;
      ghost var was := AllWas(slots);
      GrownNow(was);
      Applications(-1, was);
      GrownSince(was);
      AllWait();
      StillTended(news);
      PollsMore(old(Now()), Now());
    }

    /** The loop that polls the active slots. */
    method AskAll(ghost news: News) returns (ghost cut: set<nat>)
      requires Valid() && QuietBut(-1) && Tended(news)
      modifies this`sessions, slots, Nodes()
      ensures Tended(news) && Asked(|slots|)
      ensures Polls(cut, old(Now()), Now())
      ensures Since(old(AllWas(slots)), AllWas(slots), cut)
      ensures Valid() && QuietBut(-1) && NodesOldOrFresh()
    {
      hide Valid, QuietBut, Grown, Slot.Valid, Since, Polls, Now, AllWas, Tended, Asked;
      ghost var was, scene := AllWas(slots), Now();
      SinceNow(was);
      PollsNow(scene);
      cut := {};
      NoneAsked();
      var k := 0;
      while k < |slots|
        invariant 0 <= k <= |slots| && Valid() && QuietBut(-1) && NodesOldOrFresh()
        invariant Since(was, AllWas(slots), cut) && Polls(cut, scene, Now())
        invariant Tended(news) && Asked(k)
      {
        ghost var before, between := AllWas(slots), Now();
        ghost var more := PollIdle(k, news);
        SinceThrough(was, before, AllWas(slots), cut, more);
        PollsThrough(scene, between, Now(), cut, more);
        cut := cut + more;
        k := k + 1;
      }
    }

    lemma NoneAsked()
      ensures Asked(0)
    {
    }

    /** An active slot that expects no answer is sent an empty T_DATA_LAST, and reset if that does not work. */
    method PollIdle(k: nat, ghost news: News) returns (ghost cut: set<nat>)
      requires Valid() && QuietBut(-1) && k < |slots| && Tended(news) && Asked(k)
      modifies this`sessions, slots, Nodes()
      ensures Tended(news) && Asked(k + 1)
      ensures Polls(cut, old(Now()), Now())
      ensures if old(slots[k].active && !slots[k].expectAnswer) then cut == {} ==> Says(k, [], old(Now()), Now()) else cut == {} && Now() == old(Now())
      ensures reliable ==> cut == {}
      ensures Since(old(AllWas(slots)), AllWas(slots), cut)
      ensures Valid() && QuietBut(-1) && NodesOldOrFresh()
    {
      hide Valid, QuietBut, Grown, Slot.Valid, Since, Polls, Now, OthersWait, AllWas, Tended, Asked, Says;
      ValidFacts();
      ghost var was, scene := AllWas(slots), Now();
      SinceNow(was);
      PollsNow(scene);
      NothingHappened();
      cut := {};
      if slots[k].active && !slots[k].expectAnswer {
        GrownNow(was);
        var r := Say(k, [], -1, was);
        GrownSince(was);
        AllWait();
        StillTended(news);
        StillAsked(k);
        MoreFrom(scene, Now(), Now());
        PollsMore(scene, Now());
        if r != 0 {
          cut := Cut(k, news, was, scene);
        }
      }
      OneMoreAsked(k);
    }

    /** Writing failed. */
    method Cut(k: nat, ghost news: News, ghost was: seq<Was>, ghost scene: Scene) returns (ghost cut: set<nat>)
      requires Valid() && QuietBut(-1) && k < |slots| && Tended(news) && !reliable
      requires Polls({}, scene, Now()) && Since(was, AllWas(slots), {})
      modifies this`sessions, slots
      ensures cut == {k} && Tended(news) && Asked(|slots|) && Asked(k)
      ensures Polls(cut, scene, Now()) && Since(was, AllWas(slots), cut)
      ensures Valid() && QuietBut(-1) && NodesOldOrFresh()
    {
      hide Valid, QuietBut, Slot.Valid, Since, Polls, Now, AllWas, NodesOldOrFresh;
      ghost var before, between := AllWas(slots), Now();
      ResetSlot(k, -1);
      WentAway(k, between, Now());
      SinceThrough(was, before, AllWas(slots), {}, {k});
      PollsThrough(scene, between, Now(), {}, {k});
      cut := {k};
      assert {} + {k} == {k};
    }

    lemma OneMoreAsked(k: nat)
      requires Asked(k) && k < |slots| && (reliable && slots[k].active ==> slots[k].expectAnswer)
      ensures Asked(k + 1)
    {
    }
  }

  /** The slots in `cut` were reset: their sessions are free, and they are not active; all other sessions stay. */
  ghost predicate Polls(cut: set<nat>, a: Scene, b: Scene) {
    && |a.table| == |b.table| && |a.marks| == |b.marks| && |a.queues| == |b.queues|
    && (forall n :: 0 <= n < |a.table| ==> b.table[n] == Session(a.table[n].slot, if a.table[n].slot in cut then 0 else a.table[n].resource))
    && (forall i: nat :: i < |a.marks| ==> b.marks[i] == Mark(a.marks[i].pending, a.marks[i].hasData, a.marks[i].active && i !in cut))
    && (forall i: nat :: i < |a.queues| && i !in cut ==> a.queues[i] <= b.queues[i])
  }

  /** T_CREATE_TC is queued for slot k, or nothing happens. */
  ghost predicate Starts(k: nat, start: bool, a: Scene, b: Scene) {
    if start
    then k < |a.queues| && k < MAX_CI_SLOTS && b == a.(queues := a.queues[k := a.queues[k] + [[k, k + 1, 0x82, 1, k + 1]]])
    else b == a
  }

  lemma PollsNow(a: Scene)
    ensures Polls({}, a, a)
  {
  }

  lemma PollsThrough(a: Scene, b: Scene, c: Scene, cut: set<nat>, more: set<nat>)
    requires Polls(cut, a, b) && Polls(more, b, c)
    ensures Polls(cut + more, a, c)
  {
  }

  lemma PollsMore(a: Scene, b: Scene)
    requires MoreQueued(a, b) && b.table == a.table && b.marks == a.marks
    ensures Polls({}, a, b)
  {
  }

  lemma SentPolls(k: nat, a: Scene, b: Scene)
    requires k < |a.queues| == |b.queues| && a.queues[k] <= b.queues[k] && b == a.(queues := a.queues[k := b.queues[k]])
    ensures Polls({}, a, b)
  {
  }

  /** The slot is not active any more, and nothing that other slots have queued is gone. */
  ghost predicate Clears(k: nat, a: Scene, b: Scene) {
    && |a.marks| == |b.marks| == |a.queues| == |b.queues| && k < |a.marks| && b.table == a.table
    && b.marks == a.marks[k := a.marks[k].(active := false)]
    && b.queues == a.queues[k := b.queues[k]]
  }

  lemma ClearsIs(k: nat, a: Scene, b: Scene)
    requires |a.marks| == |b.marks| == |a.queues| == |b.queues| && k < |a.marks| && b.table == a.table
    requires forall i :: 0 <= i < |a.marks| ==> b.marks[i] == if i == k then a.marks[i].(active := false) else a.marks[i]
    requires forall i :: 0 <= i < |a.queues| && i != k ==> b.queues[i] == a.queues[i]
    ensures Clears(k, a, b)
  {
    assert b.marks == a.marks[k := a.marks[k].(active := false)];
  }

  lemma ResetIs(k: nat, a: Scene, cleared: Scene, b: Scene)
    requires Clears(k, a, cleared) && b == cleared.(table := b.table) && |b.table| == |a.table|
    requires forall n :: 0 <= n < |a.table| ==> b.table[n] == if a.table[n].slot == k then Session(k, 0) else a.table[n]
    ensures Polls({k}, a, b)
  {
  }

  /** From `was` to `now`: what left a slot stays and more may have left, nothing was taken in or given
      on; but for the slots in `cut`, which were reset, nothing queued was dropped either. */
  ghost predicate Since(was: seq<Was>, now: seq<Was>, cut: set<nat>) {
    && |was| == |now|
    && forall i :: 0 <= i < |was| ==>
      && was[i].left <= now[i].left && now[i].delivered == was[i].delivered
      && if i in cut then now[i].recv == None else now[i].recv == was[i].recv && was[i].queued <= now[i].queued
  }

  lemma SinceNow(was: seq<Was>)
    ensures Since(was, was, {})
  {
  }

  lemma SinceThrough(a: seq<Was>, b: seq<Was>, c: seq<Was>, cut: set<nat>, more: set<nat>)
    requires Since(a, b, cut) && Since(b, c, more)
    ensures Since(a, c, cut + more)
  {
  }

  /** Slot and transport connection go together; the connection identifier 0 belongs to no slot. */
  function SlotOf(data: seq<Byte>): (k: nat)
    requires |data| >= 5
  {
    var tcid: int := data[1];
    (tcid + 255) % 256
  }

  /** What a TPDU does to the receive side of its slot. */
  function Taken(was: seq<Was>, data: seq<Byte>): (r: seq<Was>)
    requires |data| >= 5 && SlotOf(data) < |was| && (IsData(data[2]) ==> Readable(data))
  {
    var k := SlotOf(data);
    var rx := Accept(Rx(was[k].recv, was[k].delivered), Frag(data[2], if IsData(data[2]) then Parse(data).content else []));
    was[k := was[k].(expectAnswer := false, recv := rx.part, delivered := rx.delivered)]
  }

  lemma TakenIs(was: seq<Was>, data: seq<Byte>)
    requires |data| >= 5 && SlotOf(data) < |was| && (IsData(data[2]) ==> Readable(data))
    ensures var k := SlotOf(data); var was1 := was[k := was[k].(expectAnswer := false)];
      Taken(was, data) ==
        if IsData(data[2])
        then var rx := Accept(Rx(was1[k].recv, was1[k].delivered), Frag(data[2], Parse(data).content));
          was1[k := was1[k].(recv := rx.part, delivered := rx.delivered)]
        else was1
  {
  }

  function SessionNumber(high: int, low: int): int {
    high * 0x100 + low
  }

  function ResourceId(spdu: seq<Byte>): int
    requires |spdu| == 6
  {
    var a: int, b: int, c: int, d: int := spdu[2], spdu[3], spdu[4], spdu[5];
    Wrap(((a * 0x100 + b) * 0x100 + c) * 0x100 + d)
  }

  predicate FirstFree(sessions: seq<Session>, n: nat) {
    1 <= n <= |sessions| && sessions[n - 1].resource == 0 && forall i :: 0 <= i < n - 1 ==> sessions[i].resource != 0
  }

  /** Session and data read back from an SPDU. */
  lemma SpduReads(n: nat, data: seq<Byte>)
    requires n <= MAX_SESSIONS
    ensures |Spdu(n, data)| == 4 + |data| && Spdu(n, data)[4..] == data
    ensures Spdu(n, data)[0] == 0x90 && Spdu(n, data)[1] == 2 && Value(Spdu(n, data)[2..4]) == n
  {
    hide Value;
    ValueTwo(n / 0x100, n % 0x100);
    assert Spdu(n, data)[2..4] == [n / 0x100, n % 0x100];
  }

  function Spdu(n: nat, data: seq<Byte>): seq<Byte>
    requires n <= MAX_SESSIONS
  {
    [ST_SESSION_NUMBER, 0x02, n / 0x100, n % 0x100] + data
  }
}
