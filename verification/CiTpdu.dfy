/** TPDUs of EN 50221 (section 7) as values: their format, how a session packet (SPDU) is cut into them,
    and how a receiver puts it together again. */
module CiTpdu {
  import opened Common
  import opened CiLength

  const MAX_TPDU_SIZE := 4096
  const MAX_TPDU_DATA := MAX_TPDU_SIZE - 7
  const MAX_CI_SLOTS := 16
  const T_SB: Byte := 0x80
  const T_RCV: Byte := 0x81
  const T_CREATE_TC: Byte := 0x82
  const T_CTC_REPLY: Byte := 0x83
  const T_DELETE_TC: Byte := 0x84
  const T_DTC_REPLY: Byte := 0x85
  const T_REQUEST_TC: Byte := 0x86
  const T_NEW_TC: Byte := 0x87
  const T_TC_ERROR: Byte := 0x88
  const T_DATA_LAST: Byte := 0xA0
  const T_DATA_MORE: Byte := 0xA1
  const DATA_INDICATOR := 0x80

  type SlotId = i: int | 0 <= i < MAX_CI_SLOTS

  predicate IsData(tag: Byte) {
    tag == T_DATA_LAST || tag == T_DATA_MORE
  }

  predicate IsPlain(tag: Byte) {
    tag == T_RCV || tag == T_CREATE_TC || tag == T_CTC_REPLY || tag == T_DELETE_TC || tag == T_DTC_REPLY || tag == T_REQUEST_TC
  }

  predicate HasReason(tag: Byte) {
    tag == T_NEW_TC || tag == T_TC_ERROR
  }

  /** What TPDUSend queues. */
  function Tpdu(slot: SlotId, tag: Byte, content: seq<Byte>): seq<Byte>
    requires |content| <= MAX_TPDU_DATA && (HasReason(tag) ==> content != [])
  {
    var tcid: Byte := slot + 1;
    if IsPlain(tag) then [slot, tcid, tag, 1, tcid]
    else if HasReason(tag) then [slot, tcid, tag, 2, tcid, content[0]]
    else if IsData(tag) then [slot, tcid, tag] + LengthField(|content| + 1) + [tcid] + content
    else []
  }

  lemma TpduFits(slot: SlotId, tag: Byte, content: seq<Byte>)
    requires |content| <= MAX_TPDU_DATA && (HasReason(tag) ==> content != [])
    ensures |Tpdu(slot, tag, content)| <= MAX_TPDU_SIZE
  {
    assert |LengthField(|content| + 1)| <= 3;
  }

  /** The part of TPDURecv that looks at the bytes: slot, tag and, for data, the session bytes. */
  datatype Received = Received(slot: int, tag: Byte, content: seq<Byte>)

  predicate Readable(data: seq<Byte>) {
    |data| >= 5 && HasField(data[3..])
      && Parsed(data[3..]).0 <= |data| - 3 - Parsed(data[3..]).1
  }

  function Parse(data: seq<Byte>): Received
    requires Readable(data)
  {
    var (length, size) := Parsed(data[3..]);
    var start, tcid: int := 3 + size + 1, data[1];
    Received((tcid + 255) % 256, data[2], if length <= 1 then [] else data[start..start + length - 1])
  }

  /** What comes behind a data TPDU, the status of the module say, is not taken for data. */
  lemma ParseTpdu(slot: SlotId, tag: Byte, content: seq<Byte>, status: seq<Byte>)
    requires IsData(tag) && |content| <= MAX_TPDU_DATA
    ensures var data := Tpdu(slot, tag, content) + status;
      Readable(data) && Parse(data) == Received(slot, tag, content)
  {
    hide Parsed, HasField, LengthField;
    var tcid: Byte := slot + 1;
    var field := LengthField(|content| + 1);
    var data := Tpdu(slot, tag, content) + status;
    LengthRoundTrip(|content| + 1, [tcid] + content + status);
    Regroup([slot, tcid, tag], field, [tcid], content, status);
  }

  lemma Regroup(head: seq<Byte>, field: seq<Byte>, tcid: seq<Byte>, content: seq<Byte>, status: seq<Byte>)
    ensures var data, start := (head + field + tcid + content) + status, |head| + |field| + |tcid|;
      && data[|head|..] == field + (tcid + content + status)
      && data[start..start + |content|] == content
      && forall i :: 0 <= i < |head| ==> data[i] == head[i]
  {
    var data := (head + field + tcid + content) + status;
    assert data == head + (field + (tcid + content + status));
    assert data == (head + field + tcid) + (content + status);
  }

  // ----- fragments -----

  datatype Frag = Frag(tag: Byte, content: seq<Byte>)

  /** The loop of SPDUSend. */
  function Fragments(spdu: seq<Byte>): (fs: seq<Frag>)
    decreases |spdu|
  {
    if spdu == [] then []
    else if |spdu| > MAX_TPDU_DATA then [Frag(T_DATA_MORE, spdu[..MAX_TPDU_DATA])] + Fragments(spdu[MAX_TPDU_DATA..])
    else [Frag(T_DATA_LAST, spdu)]
  }

  /** No fragment is empty or too long, and only the last one is marked as the last. */
  lemma {:induction false} FragmentsOk(spdu: seq<Byte>)
    requires spdu != []
    ensures Fragments(spdu) != []
    ensures forall i :: 0 <= i < |Fragments(spdu)| ==>
      && 1 <= |Fragments(spdu)[i].content| <= MAX_TPDU_DATA
      && Fragments(spdu)[i].tag == (if i == |Fragments(spdu)| - 1 then T_DATA_LAST else T_DATA_MORE)
    decreases |spdu|
  {
    if |spdu| > MAX_TPDU_DATA {
      FragmentsOk(spdu[MAX_TPDU_DATA..]);
    }
  }

  /** The receive side of a slot: p_recv, and what SPDUHandle was given. */
  datatype Rx = Rx(part: Option<seq<Byte>>, delivered: seq<seq<Byte>>)

  function PartOf(rx: Rx): seq<Byte> {
    if rx.part.None? then [] else rx.part.value
  }

  /** An empty TPDU does nothing, not even as the last one. */
  function Accept(rx: Rx, f: Frag): Rx {
    if !IsData(f.tag) || f.content == [] then rx
    else if f.tag == T_DATA_LAST then Rx(None, rx.delivered + [PartOf(rx) + f.content])
    else rx.(part := Some(PartOf(rx) + f.content))
  }

  function AcceptAll(rx: Rx, fs: seq<Frag>): Rx {
    if fs == [] then rx else Accept(AcceptAll(rx, fs[..|fs| - 1]), fs[|fs| - 1])
  }

  lemma {:induction false} AcceptConcat(rx: Rx, a: seq<Frag>, b: seq<Frag>)
    ensures AcceptAll(rx, a + b) == AcceptAll(AcceptAll(rx, a), b)
    decreases |b|
  {
    if b == [] {
      assert a + b == a;
    } else {
      assert (a + b)[..|a + b| - 1] == a + b[..|b| - 1];
      AcceptConcat(rx, a, b[..|b| - 1]);
    }
  }

  lemma AcceptOne(rx: Rx, f: Frag)
    ensures AcceptAll(rx, [f]) == Accept(rx, f)
  {
    assert [f][..0] == [];
  }

  lemma {:induction false} FragmentsJoin(rx: Rx, spdu: seq<Byte>)
    requires spdu != []
    ensures AcceptAll(rx, Fragments(spdu)) == Rx(None, rx.delivered + [PartOf(rx) + spdu])
    decreases |spdu|
  {
    if |spdu| > MAX_TPDU_DATA {
      var first, rest := Frag(T_DATA_MORE, spdu[..MAX_TPDU_DATA]), spdu[MAX_TPDU_DATA..];
      AcceptConcat(rx, [first], Fragments(rest));
      AcceptOne(rx, first);
      FragmentsJoin(Accept(rx, first), rest);
      assert PartOf(rx) + first.content + rest == PartOf(rx) + spdu by {
        assert first.content + rest == spdu;
      }
    } else {
      AcceptOne(rx, Frag(T_DATA_LAST, spdu));
    }
  }

  function AllFragments(spdus: seq<seq<Byte>>): seq<Frag> {
    if spdus == [] then [] else AllFragments(spdus[..|spdus| - 1]) + Fragments(spdus[|spdus| - 1])
  }

  predicate NoneEmpty(spdus: seq<seq<Byte>>) {
    forall i :: 0 <= i < |spdus| ==> spdus[i] != []
  }

  // ----- several slots on one device -----

  /** What happens to the receive sides: a slot gets a TPDU, or is reset. */
  datatype Event = Got(slot: nat, frag: Frag) | Lost(slot: nat)

  predicate Carries(f: Frag) {
    IsData(f.tag) && f.content != []
  }

  /** The data that a slot gets. */
  function OnSlot(events: seq<Event>, slot: nat): seq<Frag> {
    if events == [] then []
    else OnSlot(events[..|events| - 1], slot) +
         (var e := events[|events| - 1]; if e.Got? && e.slot == slot && Carries(e.frag) then [e.frag] else [])
  }

  /** TPDURecv and ResetSlot over a run: one receive side per slot. */
  function AcceptEvents(rxs: seq<Rx>, events: seq<Event>): (r: seq<Rx>)
    ensures |r| == |rxs|
  {
    if events == [] then rxs
    else
      var r, e := AcceptEvents(rxs, events[..|events| - 1]), events[|events| - 1];
      if e.slot >= |rxs| then r
      else if e.Lost? then r[e.slot := r[e.slot].(part := None)]
      else r[e.slot := Accept(r[e.slot], e.frag)]
  }

  lemma {:induction false} EventsConcat(rxs: seq<Rx>, a: seq<Event>, b: seq<Event>)
    ensures AcceptEvents(rxs, a + b) == AcceptEvents(AcceptEvents(rxs, a), b)
    decreases |b|
  {
    if b == [] {
      assert a + b == a;
    } else {
      assert (a + b)[..|a + b| - 1] == a + b[..|b| - 1];
      EventsConcat(rxs, a, b[..|b| - 1]);
    }
  }

  lemma {:induction false} SlotsApart(rxs: seq<Rx>, events: seq<Event>, slot: nat)
    requires slot < |rxs| && Lost(slot) !in events
    ensures AcceptEvents(rxs, events)[slot] == AcceptAll(rxs[slot], OnSlot(events, slot))
  {
    if events != [] {
      var init, e := events[..|events| - 1], events[|events| - 1];
      SlotsApart(rxs, init, slot);
      if e.slot == slot && Carries(e.frag) {
        AcceptConcat(rxs[slot], OnSlot(init, slot), [e.frag]);
        AcceptOne(AcceptAll(rxs[slot], OnSlot(init, slot)), e.frag);
      } else {
        assert OnSlot(init, slot) + [] == OnSlot(init, slot);
      }
    }
  }

  /** However the TPDUs of the slots are interleaved, a slot that is not reset delivers exactly the SPDUs
      that were sent on it, each once, and nothing is left over. */
  lemma {:induction false} SpdusArriveInterleaved(rxs: seq<Rx>, events: seq<Event>, slot: nat, spdus: seq<seq<Byte>>)
    requires slot < |rxs| && rxs[slot].part == None && Lost(slot) !in events && NoneEmpty(spdus)
    requires OnSlot(events, slot) == AllFragments(spdus)
    ensures AcceptEvents(rxs, events)[slot] == Rx(None, rxs[slot].delivered + spdus)
  {
    SlotsApart(rxs, events, slot);
    SpdusArriveAfter(rxs[slot].delivered, spdus);
  }

  lemma {:induction false} SpdusArriveAfter(before: seq<seq<Byte>>, spdus: seq<seq<Byte>>)
    requires NoneEmpty(spdus)
    ensures AcceptAll(Rx(None, before), AllFragments(spdus)) == Rx(None, before + spdus)
  {
    if spdus != [] {
      var init, last := spdus[..|spdus| - 1], spdus[|spdus| - 1];
      SpdusArriveAfter(before, init);
      assert AllFragments(spdus) == AllFragments(init) + Fragments(last);
      hide AcceptAll, AllFragments, Fragments;
      AcceptConcat(Rx(None, before), AllFragments(init), Fragments(last));
      OneArrives(before + init, last);
    }
    LastSpdu(before, spdus);
  }

  lemma LastSpdu(before: seq<seq<Byte>>, spdus: seq<seq<Byte>>)
    ensures before + spdus == if spdus == [] then before else before + spdus[..|spdus| - 1] + [spdus[|spdus| - 1]]
  {
  }

  lemma OneArrives(before: seq<seq<Byte>>, spdu: seq<Byte>)
    requires spdu != []
    ensures AcceptAll(Rx(None, before), Fragments(spdu)) == Rx(None, before + [spdu])
  {
    hide AcceptAll, Fragments;
    FragmentsJoin(Rx(None, before), spdu);
    assert [] + spdu == spdu;
  }

  /** The contents of fragments, put together. */
  function Joined(fs: seq<Frag>): seq<Byte> {
    if fs == [] then [] else Joined(fs[..|fs| - 1]) + fs[|fs| - 1].content
  }

  lemma {:induction false} MoreGathers(rx: Rx, fs: seq<Frag>)
    requires forall f :: f in fs ==> f.tag == T_DATA_MORE
    ensures var r := AcceptAll(rx, fs);
      r.delivered == rx.delivered && PartOf(r) == PartOf(rx) + Joined(fs)
  {
    if fs != [] {
      MoreGathers(rx, fs[..|fs| - 1]);
    }
  }

  /** From any sender: the SPDU is delivered, whole, exactly if the TPDU marked as the last one is not empty;
      otherwise its bytes stay, and go in front of the next SPDU. */
  lemma LastDecides(rx: Rx, fs: seq<Frag>, last: Frag)
    requires (forall f :: f in fs ==> f.tag == T_DATA_MORE) && last.tag == T_DATA_LAST
    ensures var r := AcceptAll(rx, fs + [last]);
      && (last.content != [] <==> r.delivered == rx.delivered + [PartOf(rx) + Joined(fs) + last.content])
      && (last.content == [] <==> r.delivered == rx.delivered)
      && PartOf(r) == if last.content == [] then PartOf(rx) + Joined(fs) else []
  {
    MoreGathers(rx, fs);
    AcceptConcat(rx, fs, [last]);
    AcceptOne(AcceptAll(rx, fs), last);
  }
}
