/** Whole runs of the common interface: TPDUs come in from any slot, the timer polls, applications send,
    slots are reset, in any order. */
module CiRuns {
  import opened Common
  import opened CiLength
  import opened CiTpdu
  import opened CiTransport

  datatype Step =
    | Came(data: seq<Byte>)
    | Polled
    | Spoke(session: nat, data: seq<Byte>)
    | WasReset(slot: nat)

  /** What is read is not cut off in the middle of a data TPDU; sessions and slots exist. */
  ghost predicate Regular(d: Device, e: Step) {
    match e
    case Came(data) => |data| >= 5 && IsData(data[2]) ==> Readable(data)
    case Polled => true
    case Spoke(n, _) => 1 <= n <= MAX_SESSIONS
    case WasReset(k) => k < |d.slots|
  }

  ghost predicate Sound(d: Device)
    reads d, d.slots, d.Nodes()
  {
    d.Valid() && d.QuietBut(-1)
  }

  // ----- the receive sides -----

  function Sides(was: seq<Was>): (rxs: seq<Rx>)
    ensures |rxs| == |was| && forall i :: 0 <= i < |was| ==> rxs[i] == Rx(was[i].recv, was[i].delivered)
  {
    seq(|was|, i requires 0 <= i < |was| => Rx(was[i].recv, was[i].delivered))
  }

  /** What a TPDU is to its slot's receive side. */
  function Heard(data: seq<Byte>): seq<Event>
    requires |data| >= 5 && IsData(data[2]) ==> Readable(data)
  {
    if |data| < 5 then []
    else [Got(SlotOf(data), Frag(data[2], if IsData(data[2]) then Parse(data).content else []))]
  }

  /** The part of the log that belongs to a step. */
  ghost predicate Explains(e: Step, part: seq<Event>) {
    match e
    case Came(data) => (|data| >= 5 && IsData(data[2]) ==> Readable(data)) && part == Heard(data)
    case Polled => forall x :: x in part ==> x.Lost?
    case Spoke(_, _) => part == []
    case WasReset(k) => part == [Lost(k)]
  }

  ghost predicate ExplainsAll(steps: seq<Step>, log: seq<seq<Event>>) {
    |log| == |steps| && forall i :: 0 <= i < |steps| ==> Explains(steps[i], log[i])
  }

  function Flat(log: seq<seq<Event>>): seq<Event> {
    if log == [] then [] else Flat(log[..|log| - 1]) + log[|log| - 1]
  }

  lemma OneEvent(rxs: seq<Rx>, e: Event)
    ensures AcceptEvents(rxs, [e]) ==
      if e.slot >= |rxs| then rxs
      else if e.Lost? then rxs[e.slot := rxs[e.slot].(part := None)]
      else rxs[e.slot := Accept(rxs[e.slot], e.frag)]
  {
    assert [e][..0] == [];
  }

  lemma HeardIsTaken(was: seq<Was>, data: seq<Byte>)
    requires |data| >= 5 && IsData(data[2]) ==> Readable(data)
    ensures |data| >= 5 && SlotOf(data) < |was| ==> Sides(Taken(was, data)) == AcceptEvents(Sides(was), Heard(data))
    ensures !(|data| >= 5 && SlotOf(data) < |was|) ==> Sides(was) == AcceptEvents(Sides(was), Heard(data))
  {
    hide Parse, Readable, Accept;
    if |data| >= 5 {
      OneEvent(Sides(was), Heard(data)[0]);
    }
  }

  /** Slots that were reset have lost what they had gathered. */
  lemma CutIsLost(was: seq<Was>, now: seq<Was>, cut: set<nat>) returns (part: seq<Event>)
    requires Since(was, now, cut)
    ensures forall k: nat :: Lost(k) in part <==> k in cut && k < |was|
    ensures Sides(now) == AcceptEvents(Sides(was), part)
    ensures forall x :: x in part ==> x.Lost?
    ensures InOrder(was, now, part)
  {
    part := LostUpTo(Sides(was), Sides(now), cut, |was|);
    assert Sides(now)[..|was|] + Sides(was)[|was|..] == Sides(now);
    forall k: nat | k < |was| && Lost(k) !in part ensures was[k].queued <= now[k].queued {
      assert k !in cut;
    }
  }

  lemma {:induction false} LostUpTo(a: seq<Rx>, b: seq<Rx>, cut: set<nat>, n: nat) returns (part: seq<Event>)
    requires |a| == |b| && forall i: nat :: i < |a| ==> b[i] == if i in cut then a[i].(part := None) else a[i]
    requires n <= |a|
    ensures AcceptEvents(a, part) == b[..n] + a[n..]
    ensures forall x :: x in part ==> x.Lost?
    ensures forall k: nat :: Lost(k) in part <==> k in cut && k < n
  {
    if n == 0 {
      part := [];
    } else {
      hide AcceptEvents;
      part := LostUpTo(a, b, cut, n - 1);
      OneMore(a, b, n - 1);
      if n - 1 in cut {
        EventsConcat(a, part, [Lost(n - 1)]);
        OneEvent(AcceptEvents(a, part), Lost(n - 1));
        part := part + [Lost(n - 1)];
      }
    }
  }

  lemma OneMore(a: seq<Rx>, b: seq<Rx>, n: nat)
    requires n < |a| == |b|
    ensures (b[..n] + a[n..])[n] == a[n]
    ensures (b[..n] + a[n..])[n := b[n]] == b[..n + 1] + a[n + 1..]
    ensures b[n] == a[n] ==> b[..n] + a[n..] == b[..n + 1] + a[n + 1..]
  {
  }

  // ----- steps -----

  /** Since the slots were like this, TPDUs that left stay in their order, and those of a slot that was not
      reset are still queued. */
  ghost predicate InOrder(was: seq<Was>, now: seq<Was>, part: seq<Event>) {
    && |was| == |now|
    && forall k: nat :: k < |was| ==>
      was[k].left <= now[k].left && (Lost(k) !in part ==> was[k].queued <= now[k].queued)
  }

  lemma InOrderThrough(a: seq<Was>, b: seq<Was>, c: seq<Was>, part: seq<Event>, more: seq<Event>)
    requires InOrder(a, b, part) && InOrder(b, c, more)
    ensures InOrder(a, c, part + more)
  {
  }

  lemma GrownSides(d: Device, was: seq<Was>)
    requires d.Grown(was)
    ensures Sides(AllWas(d.slots)) == Sides(was)
    ensures forall part :: InOrder(was, AllWas(d.slots), part)
  {
  }

  lemma TakenOrder(was: seq<Was>, data: seq<Byte>, now: seq<Was>, part: seq<Event>)
    requires |data| >= 5 && SlotOf(data) < |was| && (IsData(data[2]) ==> Readable(data))
    requires InOrder(Taken(was, data), now, part)
    ensures InOrder(was, now, part)
  {
    hide Parse, Readable, Accept;
  }

  /** What a step does to the sessions, the queues and what is to be done next. */
  ghost predicate Passes(e: Step, v: seq<Was>, a: Scene, v': seq<Was>, b: Scene, part: seq<Event>, reliable: bool) {
    match e
    case Came(data) =>
      if |data| < 5 || SlotOf(data) >= |v| then b == a
      else exists mid, up :: Heeds(data, v, a, mid, reliable) && GoesOn(data, up, v, mid, v', b, reliable)
    case Polled =>
      (exists cut: set<nat> :: Polls(cut, a, b) && forall k: nat :: Lost(k) in part <==> k in cut && k < |v|)
      && |v'| == |b.marks|
      && forall k :: 0 <= k < |v'| && reliable && b.marks[k].active ==> v'[k].expectAnswer
    case Spoke(n, data) =>
      && b.table == a.table && b.marks == a.marks && MoreQueued(a, b)
      && (reliable && 1 <= n <= |a.table| && a.table[n - 1].slot < |a.queues| && n <= MAX_SESSIONS && a.table[n - 1].slot < MAX_CI_SLOTS ==>
           var k := a.table[n - 1].slot; b.queues[k] == a.queues[k] + Tpdus(k, Fragments(Spdu(n, data))))
    case WasReset(k) => Polls({k}, a, b)
  }

  method Hear(d: Device, data: seq<Byte>)
    requires Sound(d) && Regular(d, Came(data))
    modifies d, d.slots, d.Nodes()
    ensures Sides(AllWas(d.slots)) == AcceptEvents(old(Sides(AllWas(d.slots))), Heard(data))
    ensures InOrder(old(AllWas(d.slots)), AllWas(d.slots), Heard(data))
    ensures Passes(Came(data), old(AllWas(d.slots)), old(d.Now()), AllWas(d.slots), d.Now(), Heard(data), d.reliable)
    ensures Sound(d) && d.NodesOldOrFresh()
  {
    hide Device.Valid, Device.QuietBut, Device.Grown, Readable, Heard, Taken, InOrder, Device.Now, Heeds, GoesOn;
    ghost var was := AllWas(d.slots);
    HeardIsTaken(was, data);
    var r, mid, up := d.TpduRecv(data);
    if r == 0 {
      GrownSides(d, Taken(was, data));
      TakenOrder(was, data, AllWas(d.slots), Heard(data));
    } else {
      GrownSides(d, was);
    }
  }

  method Handle(d: Device, e: Step) returns (ghost part: seq<Event>)
    requires Sound(d) && Regular(d, e)
    modifies d, d.slots, d.Nodes()
    ensures Explains(e, part)
    ensures Sides(AllWas(d.slots)) == AcceptEvents(old(Sides(AllWas(d.slots))), part)
    ensures InOrder(old(AllWas(d.slots)), AllWas(d.slots), part)
    ensures Passes(e, old(AllWas(d.slots)), old(d.Now()), AllWas(d.slots), d.Now(), part, d.reliable)
    ensures Sound(d) && d.NodesOldOrFresh()
  {
    hide Sound, Readable, Heard, Device.Now, Passes, AcceptEvents, InOrder;
    match e
    case Came(data) =>
      Hear(d, data);
      part := Heard(data);
    case Polled =>
      part := PollAll(d);
    case Spoke(n, data) =>
      Speak(d, n, data);
      part := [];
    case WasReset(k) =>
      Reset(d, k);
      part := [Lost(k)];
  }

  method PollAll(d: Device) returns (ghost part: seq<Event>)
    requires Sound(d)
    modifies d, d.slots, d.Nodes()
    ensures Explains(Polled, part)
    ensures Sides(AllWas(d.slots)) == AcceptEvents(old(Sides(AllWas(d.slots))), part)
    ensures InOrder(old(AllWas(d.slots)), AllWas(d.slots), part)
    ensures Passes(Polled, old(AllWas(d.slots)), old(d.Now()), AllWas(d.slots), d.Now(), part, d.reliable)
    ensures Sound(d) && d.NodesOldOrFresh()
  {
    hide Device.Valid, Device.QuietBut, Since, Device.Now, Polls, AcceptEvents, InOrder, Device.Asked, Device.Tended, Passes, Explains, AllWas;
    ghost var was := AllWas(d.slots);
    ghost var cut, news := d.Poll();
    part := CutIsLost(was, AllWas(d.slots), cut);
    AllAsked(d, AllWas(d.slots), d.Now());
    PolledPasses(cut, was, old(d.Now()), AllWas(d.slots), d.Now(), part, d.reliable);
  }

  lemma PolledPasses(cut: set<nat>, v: seq<Was>, a: Scene, v': seq<Was>, b: Scene, part: seq<Event>, reliable: bool)
    requires Polls(cut, a, b) && (forall k: nat :: Lost(k) in part <==> k in cut && k < |v|)
    requires |v'| == |b.marks| && forall k :: 0 <= k < |v'| && reliable && b.marks[k].active ==> v'[k].expectAnswer
    requires forall x :: x in part ==> x.Lost?
    ensures Passes(Polled, v, a, v', b, part, reliable) && Explains(Polled, part)
  {
    hide Polls;
  }

  method Speak(d: Device, n: nat, data: seq<Byte>)
    requires Sound(d) && 1 <= n <= MAX_SESSIONS
    modifies d, d.slots, d.Nodes()
    ensures Sides(AllWas(d.slots)) == AcceptEvents(old(Sides(AllWas(d.slots))), [])
    ensures InOrder(old(AllWas(d.slots)), AllWas(d.slots), [])
    ensures Passes(Spoke(n, data), old(AllWas(d.slots)), old(d.Now()), AllWas(d.slots), d.Now(), [], d.reliable)
    ensures Sound(d) && d.NodesOldOrFresh()
  {
    hide Device.Valid, Device.QuietBut, Device.Grown, Device.Now, Tpdus, Spdu, Fragments, InOrder, MoreQueued, Passes, AllWas, AcceptEvents;
    NowIs(d);
    ghost var was := AllWas(d.slots);
    d.GrownNow(was);
    var r, k := d.SpduSend(n, data, -1, was);
    GrownSides(d, was);
    NoEvent(was);
    NowIs(d);
    SpokePasses(n, data, k, was, old(d.Now()), AllWas(d.slots), d.Now(), d.reliable);
  }

  lemma NoEvent(was: seq<Was>)
    ensures AcceptEvents(Sides(was), []) == Sides(was)
  {
  }

  lemma NowIs(d: Device)
    requires d.Valid()
    ensures d.Now().table == d.sessions && |d.sessions| == MAX_SESSIONS && |d.Now().queues| == |d.slots| <= MAX_CI_SLOTS
    ensures forall k :: 0 <= k < |d.slots| ==> d.Now().queues[k] == d.slots[k].queued
  {
  }

  lemma SpokePasses(n: nat, data: seq<Byte>, k: SlotId, v: seq<Was>, a: Scene, v': seq<Was>, b: Scene, reliable: bool)
    requires 1 <= n <= MAX_SESSIONS == |a.table| && k == a.table[n - 1].slot < |a.queues| == |b.queues|
    requires b.table == a.table && b.marks == a.marks && MoreQueued(a, b)
    requires reliable ==> b.queues[k] == a.queues[k] + Tpdus(k, Fragments(Spdu(n, data)))
    ensures Passes(Spoke(n, data), v, a, v', b, [], reliable)
  {
    hide MoreQueued, Tpdus, Fragments, Spdu;
  }

  method Reset(d: Device, k: nat)
    requires Sound(d) && k < |d.slots|
    modifies d, d.slots, d.Nodes()
    ensures Sides(AllWas(d.slots)) == AcceptEvents(old(Sides(AllWas(d.slots))), [Lost(k)])
    ensures InOrder(old(AllWas(d.slots)), AllWas(d.slots), [Lost(k)])
    ensures Passes(WasReset(k), old(AllWas(d.slots)), old(d.Now()), AllWas(d.slots), d.Now(), [Lost(k)], d.reliable)
    ensures Sound(d) && d.NodesOldOrFresh()
  {
    hide Device.Valid, Device.QuietBut, Device.Now, Since, Polls, InOrder, AcceptEvents, AllWas, Passes, Device.OthersWait;
    ghost var was := AllWas(d.slots);
    d.ResetSlot(k, -1);
    OneEvent(Sides(was), Lost(k));
    ResetSides(was, AllWas(d.slots), k);
    ResetPasses(k, was, old(d.Now()), AllWas(d.slots), d.Now(), d.reliable);
  }

  lemma ResetPasses(k: nat, v: seq<Was>, a: Scene, v': seq<Was>, b: Scene, reliable: bool)
    requires Polls({k}, a, b)
    ensures Passes(WasReset(k), v, a, v', b, [Lost(k)], reliable)
  {
  }

  lemma AllAsked(d: Device, v: seq<Was>, b: Scene)
    requires d.Asked(|d.slots|) && v == AllWas(d.slots) && b == d.Now()
    ensures |v| == |b.marks| && forall k :: 0 <= k < |v| && d.reliable && b.marks[k].active ==> v[k].expectAnswer
  {
  }

  lemma ResetSides(was: seq<Was>, now: seq<Was>, k: nat)
    requires Since(was, now, {k}) && k < |was|
    ensures Sides(now) == Sides(was)[k := Sides(was)[k].(part := None)]
    ensures InOrder(was, now, [Lost(k)])
  {
  }

  /** The sessions and queues before every step and at the end. */
  ghost predicate PassesAll(steps: seq<Step>, views: seq<seq<Was>>, scenes: seq<Scene>, log: seq<seq<Event>>, reliable: bool) {
    && |views| == |scenes| == |steps| + 1 && |log| == |steps|
    && forall i :: 0 <= i < |steps| ==> Passes(steps[i], views[i], scenes[i], views[i + 1], scenes[i + 1], log[i], reliable)
  }

  /** On every run: a TPDU is written only while no answer is expected (TpduWrite requires it), the list of
      what waits is intact up to its tail link, and if writing works nothing waits in a slot that expects no
      answer (Sound); TPDUs leave a slot in the order they were queued; what every slot has gathered and
      given on is what the TPDUs that came, and the resets, make of it; and so are the sessions and the answers. */
  method Run(d: Device, steps: seq<Step>) returns (ghost log: seq<seq<Event>>, ghost views: seq<seq<Was>>, ghost scenes: seq<Scene>)
    requires Sound(d) && forall i :: 0 <= i < |steps| ==> Regular(d, steps[i])
    modifies d, d.slots, d.Nodes()
    ensures ExplainsAll(steps, log)
    ensures Sides(AllWas(d.slots)) == AcceptEvents(old(Sides(AllWas(d.slots))), Flat(log))
    ensures InOrder(old(AllWas(d.slots)), AllWas(d.slots), Flat(log))
    ensures PassesAll(steps, views, scenes, log, d.reliable)
    ensures views[0] == old(AllWas(d.slots)) && scenes[0] == old(d.Now())
    ensures views[|steps|] == AllWas(d.slots) && scenes[|steps|] == d.Now()
    ensures Sound(d) && d.NodesOldOrFresh()
  {
    hide Sound, Regular, InOrder, Explains, AcceptEvents, Flat, AllWas, Passes, Device.Now;
    ghost var was := AllWas(d.slots);
    log, views, scenes := [], [was], [d.Now()];
    NothingYet(was);
    var i := 0;
    while i < |steps|
      invariant 0 <= i <= |steps| && |log| == i && forall j :: 0 <= j < i ==> Explains(steps[j], log[j])
      invariant Sides(AllWas(d.slots)) == AcceptEvents(Sides(was), Flat(log))
      invariant InOrder(was, AllWas(d.slots), Flat(log))
      invariant PassesAll(steps[..i], views, scenes, log, d.reliable)
      invariant views[0] == was && scenes[0] == old(d.Now()) && views[i] == AllWas(d.slots) && scenes[i] == d.Now()
      invariant Sound(d) && d.NodesOldOrFresh()
    {
      ghost var before := AllWas(d.slots);
      ghost var part := Handle(d, steps[i]);
      InOrderThrough(was, before, AllWas(d.slots), Flat(log), part);
      EventsConcat(Sides(was), Flat(log), part);
      FlatAppend(log, part);
      PassesOn(steps, i, views, scenes, log, AllWas(d.slots), d.Now(), part, d.reliable);
      log, views, scenes := log + [part], views + [AllWas(d.slots)], scenes + [d.Now()];
      i := i + 1;
    }
    assert steps[..i] == steps;
  }

  lemma PassesOn(steps: seq<Step>, i: nat, views: seq<seq<Was>>, scenes: seq<Scene>, log: seq<seq<Event>>, v: seq<Was>, b: Scene, part: seq<Event>, reliable: bool)
    requires i < |steps| && PassesAll(steps[..i], views, scenes, log, reliable)
    requires Passes(steps[i], views[i], scenes[i], v, b, part, reliable)
    ensures PassesAll(steps[..i + 1], views + [v], scenes + [b], log + [part], reliable)
  {
    hide Passes;
  }

  // ----- what becomes of sessions -----

  /** The SPDU that a step completed, if it did. */
  ghost function Handled(e: Step, v: seq<Was>): (spdu: seq<Byte>) {
    if e.Came? && |e.data| >= 5 && SlotOf(e.data) < |v| && Completes(e.data) then Whole(v[SlotOf(e.data)].recv, e.data) else []
  }

  /** The TPDU tells slot k that session n was opened for its request, or that there is no such resource. */
  ghost predicate TellsOf(tpdu: seq<Byte>, k: nat, n: nat, spdu: seq<Byte>) {
    && |spdu| == 6 && Readable(tpdu)
    && var answer := Parse(tpdu).content;
      && Parse(tpdu) == Received(k, 0xA0, answer) && |answer| == 9
      && answer[0] == 0x92 && answer[1] == 7 && answer[2] == (if Value(spdu[2..6]) in KNOWN then 0 else 0xF0)
      && answer[3..7] == spdu[2..6] && Value(answer[7..]) == n
  }

  lemma SettledTakes(k: nat, spdu: seq<Byte>, a: Scene, b: Scene, reliable: bool, n: nat) returns (tpdu: seq<Byte>)
    requires spdu != [] && Settles(k, spdu, a, b, reliable)
    requires 1 <= n <= |a.table| == |b.table| && a.table[n - 1].resource == 0 != b.table[n - 1].resource
    ensures |spdu| == 6 && spdu[0] == 0x91 && spdu[1] == 4 && (forall i :: 0 <= i < n - 1 ==> a.table[i].resource != 0)
    ensures b.table[n - 1] == Session(k, Value(spdu[2..6]))
    ensures k < |a.queues| == |b.queues| && b.queues[k] == a.queues[k] + [tpdu] && TellsOf(tpdu, k, n, spdu)
  {
    hide Readable, Parse, Value;
    var m, answer :| Takes(m, answer, k, spdu, a, b, reliable);
    assert m == n;
    tpdu := b.queues[k][|b.queues[k]| - 1];
  }

  /** The module closed session n, or refused it. */
  ghost predicate Ends(spdu: seq<Byte>, n: nat) {
    || (|spdu| == 4 && spdu[0] == 0x95 && spdu[1] == 2 && Value(spdu[2..]) == n)
    || (|spdu| == 5 && spdu[0] == 0x96 && spdu[1] == 3 && spdu[2] == 0 && Value(spdu[3..]) == n)
    || (|spdu| == 9 && spdu[0] == 0x94 && spdu[1] == 7 && Value(spdu[7..]) == n && (spdu[2] != 0 || Value(spdu[3..7]) !in KNOWN))
  }

  lemma SettledKeeps(k: nat, spdu: seq<Byte>, a: Scene, b: Scene, reliable: bool, n: nat)
    requires spdu != [] && Settles(k, spdu, a, b, reliable)
    requires 1 <= n <= |a.table| && a.table[n - 1].resource != 0
    ensures |b.table| == |a.table|
    ensures b.table[n - 1] == if Ends(spdu, n) then Session(a.table[n - 1].slot, 0) else a.table[n - 1]
    ensures forall i :: 0 <= i < |b.marks| && b.marks[i].pending == n ==> i < |a.marks| && a.marks[i].pending == n
  {
    hide Readable, Parse, Value, Says;
  }

  /** What a TPDU does is done in two steps: it is heeded, and then what has waited goes on. */
  lemma InTwoSteps(e: Step, v: seq<Was>, a: Scene, v': seq<Was>, b: Scene, part: seq<Event>, reliable: bool)
      returns (told: Scene, mid: Scene, up: int)
    requires Passes(e, v, a, v', b, part, reliable) && e.Came? && |e.data| >= 5 && SlotOf(e.data) < |v|
    ensures Told(e.data, a, told) && ComesUp(up, SlotOf(e.data), mid, b)
    ensures if Handled(e, v) != [] then Settles(SlotOf(e.data), Handled(e, v), told, mid, reliable) else mid == told
  {
    hide Settles, ComesUp, Completes, Told;
    mid, up :| Heeds(e.data, v, a, mid, reliable) && GoesOn(e.data, up, v, mid, v', b, reliable);
    told :| Told(e.data, a, told) && if Completes(e.data) then Settles(SlotOf(e.data), Whole(v[SlotOf(e.data)].recv, e.data), told, mid, reliable) else mid == told;
  }

  /** A session is taken by a request only, by the slot that asked and for the resource asked for; it is the first that
      was free, and the slot is told its number. */
  lemma TakenOnRequest(e: Step, v: seq<Was>, a: Scene, v': seq<Was>, b: Scene, part: seq<Event>, reliable: bool, n: nat) returns (tpdu: seq<Byte>)
    requires Passes(e, v, a, v', b, part, reliable)
    requires 1 <= n <= |a.table| == |b.table| && a.table[n - 1].resource == 0 != b.table[n - 1].resource
    ensures e.Came? && |e.data| >= 5
    ensures var k, spdu := SlotOf(e.data), Handled(e, v);
      && |spdu| == 6 && spdu[0] == 0x91 && spdu[1] == 4 && (forall i :: 0 <= i < n - 1 ==> a.table[i].resource != 0)
      && b.table[n - 1] == Session(k, Value(spdu[2..6]))
      && k < |a.queues| == |b.queues| && a.queues[k] + [tpdu] <= b.queues[k] && TellsOf(tpdu, k, n, spdu)
  {
    hide Readable, Parse, Value, Handled, Settles, TellsOf, Heeds, GoesOn;
    assert e.Came? && |e.data| >= 5 && SlotOf(e.data) < |v|;
    var told, mid, up := InTwoSteps(e, v, a, v', b, part, reliable);
    tpdu := SettledTakes(SlotOf(e.data), Handled(e, v), told, mid, reliable, n);
  }

  /** A request while a session is free takes the first one and is answered, whatever the resource is. */
  lemma RequestAnswered(e: Step, v: seq<Was>, a: Scene, v': seq<Was>, b: Scene, part: seq<Event>, reliable: bool) returns (n: nat, tpdu: seq<Byte>)
    requires Passes(e, v, a, v', b, part, reliable)
    requires |Handled(e, v)| == 6 && Handled(e, v)[0] == 0x91 && Handled(e, v)[1] == 4
    requires exists i :: 0 <= i < |a.table| && a.table[i].resource == 0
    ensures 1 <= n <= |a.table| == |b.table| && a.table[n - 1].resource == 0 && (forall i :: 0 <= i < n - 1 ==> a.table[i].resource != 0)
    ensures var k, spdu := SlotOf(e.data), Handled(e, v);
      && (b.table[n - 1] == Session(k, Value(spdu[2..6])) || (b.table[n - 1] == Session(k, 0) && Value(spdu[2..6]) !in KNOWN))
      && k < |a.queues| == |b.queues| && a.queues[k] + [tpdu] <= b.queues[k] && TellsOf(tpdu, k, n, spdu)
  {
    hide Readable, Parse, Value, Handled, Settles, TellsOf, Heeds, GoesOn, Passes;
    HandledCame(e, v);
    var k, spdu := SlotOf(e.data), Handled(e, v);
    var told, mid, up := InTwoSteps(e, v, a, v', b, part, reliable);
    n, tpdu := SettledAnswers(k, spdu, told, mid, reliable);
  }

  lemma HandledCame(e: Step, v: seq<Was>)
    requires Handled(e, v) != []
    ensures e.Came? && |e.data| >= 5 && SlotOf(e.data) < |v|
  {
  }

  lemma SettledAnswers(k: nat, spdu: seq<Byte>, a: Scene, b: Scene, reliable: bool) returns (n: nat, tpdu: seq<Byte>)
    requires |spdu| == 6 && spdu[0] == 0x91 && spdu[1] == 4 && exists i :: 0 <= i < |a.table| && a.table[i].resource == 0
    requires Settles(k, spdu, a, b, reliable)
    ensures 1 <= n <= |a.table| == |b.table| && a.table[n - 1].resource == 0 && (forall i :: 0 <= i < n - 1 ==> a.table[i].resource != 0)
    ensures b.table[n - 1] == Session(k, Value(spdu[2..6]))
    ensures k < |a.queues| == |b.queues| && b.queues[k] == a.queues[k] + [tpdu] && TellsOf(tpdu, k, n, spdu)
  {
    hide Readable, Parse, Value;
    var m: nat, answer :| Takes(m, answer, k, spdu, a, b, reliable);
    n := m;
    tpdu := b.queues[k][|b.queues[k]| - 1];
  }

  /** A request to close a session is answered on the slot of that session. */
  lemma CloseAnswered(e: Step, v: seq<Was>, a: Scene, v': seq<Was>, b: Scene, part: seq<Event>, reliable: bool, n: nat) returns (tpdu: seq<Byte>)
    requires Passes(e, v, a, v', b, part, reliable) && 1 <= n <= |a.table|
    requires |Handled(e, v)| == 4 && Handled(e, v)[0] == 0x95 && Handled(e, v)[1] == 2 && Value(Handled(e, v)[2..]) == n
    ensures var k := a.table[n - 1].slot;
      && k < |a.queues| == |b.queues| && a.queues[k] + [tpdu] <= b.queues[k] && Readable(tpdu)
      && var answer := Parse(tpdu).content;
        Parse(tpdu) == Received(k, 0xA0, answer) && |answer| == 5 && answer[..3] == [0x96, 3, 0] && Value(answer[3..]) == n
  {
    hide Readable, Parse, Value, Handled, Settles, Heeds, GoesOn, Passes;
    HandledCame(e, v);
    var told, mid, up := InTwoSteps(e, v, a, v', b, part, reliable);
    tpdu := SettledCloses(SlotOf(e.data), Handled(e, v), told, mid, reliable, n);
  }

  lemma SettledCloses(k: nat, spdu: seq<Byte>, a: Scene, b: Scene, reliable: bool, n: nat) returns (tpdu: seq<Byte>)
    requires |spdu| == 4 && spdu[0] == 0x95 && spdu[1] == 2 && Value(spdu[2..]) == n && 1 <= n <= |a.table|
    requires Settles(k, spdu, a, b, reliable)
    ensures var s := a.table[n - 1].slot;
      && s < |a.queues| == |b.queues| && b.queues[s] == a.queues[s] + [tpdu] && Readable(tpdu)
      && var answer := Parse(tpdu).content;
        Parse(tpdu) == Received(s, 0xA0, answer) && |answer| == 5 && answer[..3] == [0x96, 3, 0] && Value(answer[3..]) == n
  {
    hide Readable, Parse, Value;
    var answer :| Closes(n, answer, a, b);
    tpdu := b.queues[a.table[n - 1].slot][|b.queues[a.table[n - 1].slot]| - 1];
  }

  /** A session that is in use goes to no other slot or resource; and it ends exactly if the module closes or refuses
      it, its resource turns out not to be known when it was to be opened, or its slot is reset. */
  lemma EndsFor(e: Step, v: seq<Was>, a: Scene, v': seq<Was>, b: Scene, part: seq<Event>, reliable: bool, n: nat)
    requires Passes(e, v, a, v', b, part, reliable) && Explains(e, part)
    requires 1 <= n <= |a.table| == |b.table| && a.table[n - 1].resource != 0 && a.table[n - 1].slot < |v|
    ensures b.table[n - 1] == a.table[n - 1] || b.table[n - 1] == Session(a.table[n - 1].slot, 0)
    ensures Ends(Handled(e, v), n) || Lost(a.table[n - 1].slot) in part ==> b.table[n - 1].resource == 0
    ensures b.table[n - 1].resource == 0 ==>
      || Ends(Handled(e, v), n) || Lost(a.table[n - 1].slot) in part
      || (a.table[n - 1].resource !in KNOWN && exists k :: 0 <= k < |a.marks| && a.marks[k].pending == n)
  {
    hide Readable, Parse, Value, Handled, Settles, Heeds, GoesOn, MoreQueued;
    if e.Came? && |e.data| >= 5 && SlotOf(e.data) < |v| {
      CameEndsFor(e, v, a, v', b, part, reliable, n);
    } else {
      NothingHandled(e, v, n);
    }
  }

  lemma NothingHandled(e: Step, v: seq<Was>, n: nat)
    requires !(e.Came? && |e.data| >= 5 && SlotOf(e.data) < |v|)
    ensures !Ends(Handled(e, v), n)
  {
  }

  lemma CameEndsFor(e: Step, v: seq<Was>, a: Scene, v': seq<Was>, b: Scene, part: seq<Event>, reliable: bool, n: nat)
    requires Passes(e, v, a, v', b, part, reliable) && Explains(e, part) && e.Came? && |e.data| >= 5 && SlotOf(e.data) < |v|
    requires 1 <= n <= |a.table| == |b.table| && a.table[n - 1].resource != 0
    ensures b.table[n - 1] == a.table[n - 1] || b.table[n - 1] == Session(a.table[n - 1].slot, 0)
    ensures Ends(Handled(e, v), n) ==> b.table[n - 1].resource == 0
    ensures b.table[n - 1].resource == 0 ==>
      Ends(Handled(e, v), n) || (a.table[n - 1].resource !in KNOWN && exists k :: 0 <= k < |a.marks| && a.marks[k].pending == n)
    ensures Lost(a.table[n - 1].slot) !in part
  {
    hide Readable, Parse, Value, Handled, Settles, Passes, MoreQueued;
    var told, mid, up := InTwoSteps(e, v, a, v', b, part, reliable);
    if Handled(e, v) != [] {
      SettledKeeps(SlotOf(e.data), Handled(e, v), told, mid, reliable, n);
    }
  }

  /** On a run, a session that is in use from step i to step j is the same all the time. */
  lemma {:induction false} SameSession(steps: seq<Step>, views: seq<seq<Was>>, scenes: seq<Scene>, log: seq<seq<Event>>, reliable: bool, n: nat, i: nat, j: nat)
    requires PassesAll(steps, views, scenes, log, reliable) && i <= j <= |steps| && 1 <= n
    requires forall x :: i <= x <= j ==> n <= |scenes[x].table| == |scenes[i].table| && scenes[x].table[n - 1].resource != 0
    requires forall x :: i <= x <= j ==> scenes[x].table[n - 1].slot < |views[x]|
    requires ExplainsAll(steps, log)
    ensures scenes[j].table[n - 1] == scenes[i].table[n - 1]
    decreases j
  {
    if i < j {
      SameSession(steps, views, scenes, log, reliable, n, i, j - 1);
      EndsFor(steps[j - 1], views[j - 1], scenes[j - 1], views[j], scenes[j], log[j - 1], reliable, n);
    }
  }

  lemma FlatAppend(log: seq<seq<Event>>, part: seq<Event>)
    ensures Flat(log + [part]) == Flat(log) + part
  {
    assert (log + [part])[..|log|] == log;
  }

  lemma NothingYet(was: seq<Was>)
    ensures AcceptEvents(Sides(was), Flat([])) == Sides(was) && InOrder(was, was, Flat([]))
  {
  }

  // ----- what is delivered -----

  /** The data TPDUs that came from a slot, but for those that carry nothing. */
  ghost function From(steps: seq<Step>, slot: nat): seq<seq<Byte>> {
    if steps == [] then []
    else From(steps[..|steps| - 1], slot) +
         (match steps[|steps| - 1]
          case Came(data) => if |data| >= 5 && SlotOf(data) == slot && Readable(data) && Carries(Frag(data[2], Parse(data).content)) then [data] else []
          case _ => [])
  }

  /** What was queued for SPDUs, in order. */
  function AllTpdus(slot: SlotId, spdus: seq<seq<Byte>>): seq<seq<Byte>> {
    if spdus == [] then [] else AllTpdus(slot, spdus[..|spdus| - 1]) + Tpdus(slot, Fragments(spdus[|spdus| - 1]))
  }

  /** Each TPDU came as it was queued, with whatever status behind it. */
  ghost predicate AsQueued(came: seq<seq<Byte>>, queued: seq<seq<Byte>>) {
    |came| == |queued| && forall i :: 0 <= i < |came| ==> queued[i] <= came[i]
  }

  function Read(datas: seq<seq<Byte>>): (fs: seq<Frag>)
    requires forall i :: 0 <= i < |datas| ==> |datas[i]| >= 5 && Readable(datas[i])
    ensures |fs| == |datas| && forall i :: 0 <= i < |fs| ==> fs[i] == Frag(datas[i][2], Parse(datas[i]).content)
  {
    seq(|datas|, i requires 0 <= i < |datas| => Frag(datas[i][2], Parse(datas[i]).content))
  }

  lemma {:induction false} FromReads(steps: seq<Step>, log: seq<seq<Event>>, slot: nat)
    requires ExplainsAll(steps, log)
    ensures forall i :: 0 <= i < |From(steps, slot)| ==> |From(steps, slot)[i]| >= 5 && Readable(From(steps, slot)[i])
    ensures OnSlot(Flat(log), slot) == Read(From(steps, slot))
  {
    hide Readable, Parse;
    if steps != [] {
      var n := |steps| - 1;
      FromReads(steps[..n], log[..n], slot);
      assert Explains(steps[n], log[n]);
      OnSlotConcat(Flat(log[..n]), log[n], slot);
      PartOnSlot(steps[n], log[n], slot);
    }
  }

  lemma {:induction false} OnSlotConcat(a: seq<Event>, b: seq<Event>, slot: nat)
    ensures OnSlot(a + b, slot) == OnSlot(a, slot) + OnSlot(b, slot)
    decreases |b|
  {
    if b == [] {
      assert a + b == a;
    } else {
      assert (a + b)[..|a + b| - 1] == a + b[..|b| - 1];
      OnSlotConcat(a, b[..|b| - 1], slot);
    }
  }

  lemma {:induction false} LostOnSlot(part: seq<Event>, slot: nat)
    requires forall x :: x in part ==> x.Lost?
    ensures OnSlot(part, slot) == []
  {
    if part != [] {
      LostOnSlot(part[..|part| - 1], slot);
      assert part[|part| - 1] in part;
    }
  }

  lemma PartOnSlot(e: Step, part: seq<Event>, slot: nat)
    requires Explains(e, part)
    ensures var one := From([e], slot);
      (forall i :: 0 <= i < |one| ==> |one[i]| >= 5 && Readable(one[i])) && OnSlot(part, slot) == Read(one)
  {
    assert [e][..0] == [];
    if e.Came? {
      if |e.data| >= 5 {
        assert part[..0] == [];
      }
    } else {
      LostOnSlot(part, slot);
    }
  }

  lemma {:induction false} TpdusConcat(slot: SlotId, a: seq<Frag>, b: seq<Frag>)
    ensures Tpdus(slot, a + b) == Tpdus(slot, a) + Tpdus(slot, b)
  {
    hide Tpdu;
    if a == [] {
      assert a + b == b;
    } else {
      assert (a + b)[1..] == a[1..] + b;
      TpdusConcat(slot, a[1..], b);
    }
  }

  predicate Sendable(fs: seq<Frag>) {
    forall i :: 0 <= i < |fs| ==> IsData(fs[i].tag) && 1 <= |fs[i].content| <= MAX_TPDU_DATA
  }

  lemma {:induction false} AllQueued(slot: SlotId, spdus: seq<seq<Byte>>)
    requires NoneEmpty(spdus)
    ensures Sendable(AllFragments(spdus)) && AllTpdus(slot, spdus) == Tpdus(slot, AllFragments(spdus))
  {
    hide Tpdus;
    if spdus == [] {
      NoTpdus(slot);
    } else {
      AllQueued(slot, spdus[..|spdus| - 1]);
      FragmentsOk(spdus[|spdus| - 1]);
      TpdusConcat(slot, AllFragments(spdus[..|spdus| - 1]), Fragments(spdus[|spdus| - 1]));
    }
  }

  lemma {:induction false} TpdusAt(slot: SlotId, fs: seq<Frag>, i: nat)
    requires Sendable(fs) && i < |fs|
    ensures |Tpdus(slot, fs)| == |fs| && Tpdus(slot, fs)[i] == Tpdu(slot, fs[i].tag, fs[i].content)
  {
    hide Tpdu;
    if i > 0 {
      TpdusAt(slot, fs[1..], i - 1);
    } else if |fs| > 1 {
      TpdusAt(slot, fs[1..], 0);
    }
  }

  lemma AsQueuedReads(slot: SlotId, fs: seq<Frag>, came: seq<Byte>, i: nat)
    requires Sendable(fs) && i < |fs| == |Tpdus(slot, fs)| && Tpdus(slot, fs)[i] <= came
    ensures |came| >= 5 && Readable(came) && Frag(came[2], Parse(came).content) == fs[i]
  {
    hide Parse, Readable;
    TpdusAt(slot, fs, i);
    var tpdu := Tpdu(slot, fs[i].tag, fs[i].content);
    assert came == tpdu + came[|tpdu|..];
    ParseTpdu(slot, fs[i].tag, fs[i].content, came[|tpdu|..]);
  }

  /** What was queued for SPDUs reads as their fragments. */
  lemma QueuedReads(slot: SlotId, spdus: seq<seq<Byte>>, came: seq<seq<Byte>>)
    requires NoneEmpty(spdus) && AsQueued(came, AllTpdus(slot, spdus))
    ensures (forall i :: 0 <= i < |came| ==> |came[i]| >= 5 && Readable(came[i])) && Read(came) == AllFragments(spdus)
  {
    hide Parse, Readable, AllTpdus, AllFragments, Tpdus;
    var fs := AllFragments(spdus);
    AllQueued(slot, spdus);
    if fs != [] {
      TpdusAt(slot, fs, 0);
    } else {
      NoTpdus(slot);
    }
    forall i | 0 <= i < |came| ensures |came[i]| >= 5 && Readable(came[i]) && Frag(came[i][2], Parse(came[i]).content) == fs[i] {
      AsQueuedReads(slot, fs, came[i], i);
    }
  }

  /** From the bytes that SPDUSend queues at one end to what SPDUHandle is given at the other, on every run:
      whatever else comes in from other slots, is polled and sent in between, if the slot is not reset and what
      came from it are the TPDUs queued for these SPDUs, in order, then exactly these SPDUs are delivered, each once. */
  method RunDelivers(d: Device, steps: seq<Step>, ghost slot: SlotId, ghost spdus: seq<seq<Byte>>) returns (ghost log: seq<seq<Event>>)
    requires Sound(d) && forall i :: 0 <= i < |steps| ==> Regular(d, steps[i])
    requires slot < |d.slots| && d.slots[slot].recv == None && NoneEmpty(spdus)
    requires AsQueued(From(steps, slot), AllTpdus(slot, spdus))
    modifies d, d.slots, d.Nodes()
    ensures Sound(d) && ExplainsAll(steps, log)
    ensures Lost(slot) !in Flat(log) ==>
      d.slots[slot].recv == None && d.slots[slot].delivered == old(d.slots[slot].delivered) + spdus
  {
    hide Sound, Regular, InOrder, ExplainsAll, AcceptEvents, AsQueued, AllFragments, AllTpdus, OnSlot, Flat, Parse, Readable, From, PassesAll;
    ghost var was := AllWas(d.slots);
    ghost var views, scenes;
    log, views, scenes := Run(d, steps);
    FromReads(steps, log, slot);
    QueuedReads(slot, spdus, From(steps, slot));
    if Lost(slot) !in Flat(log) {
      SpdusArriveInterleaved(Sides(was), Flat(log), slot, spdus);
    }
  }
}
