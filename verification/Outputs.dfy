/** The output side of the gateway: reference-counted TS blocks and their pool, the per-output packet
    queues, the datagrams, and the scheduler that drains all queues from a single timer. */
module Outputs {
  import opened Common
  import opened PacketQueue
  import opened PidAssign
  import opened PidMap
  import Sections

  const CLDVB_MAX_BLOCKS := 500
  const DEFAULT_IPV4_MTU := 1500
  const DEFAULT_IPV6_MTU := 1280
  const UDP_HEADER_SIZE := 8
  const MAX_EIT_RETENTION := 500000
  const RAW_HEADER_SIZE := 28

  /** block_t */
  class Block {
    var ts: Ts
    var refcount: int
    var dts: int
    var tmpPid: int

    constructor ()
      ensures refcount == 1
    {
      ts := Ts(0, 0, false, false, 0, []);
      refcount, dts, tmpPid := 1, 0, UNUSED_PID;
    }
  }

  /** The end of config_ParseHost: an MTU that cannot hold one TS packet and the RTP header is
      replaced. */
  method CheckMtu(requested: int, ipv6: bool) returns (mtu: int)
    ensures TS_SIZE + RTP_HEADER_SIZE <= mtu
    ensures mtu == if TS_SIZE + RTP_HEADER_SIZE <= requested then requested else if ipv6 then DEFAULT_IPV6_MTU else DEFAULT_IPV4_MTU
  {
    var default_ := if ipv6 then DEFAULT_IPV6_MTU else DEFAULT_IPV4_MTU;
    mtu := requested;
    if mtu == 0 {
      mtu := default_;
    } else if mtu < TS_SIZE + RTP_HEADER_SIZE {
      mtu := default_;
    }
  }

  /** output_BlockCount */
  function BlockCount(mtu: int, udp: bool): int {
    (if udp then mtu else mtu - RTP_HEADER_SIZE) / TS_SIZE
  }

  /** No due time overflows. */
  predicate DueBounded<T>(q: seq<Packet<T>>, latency: int) {
    forall k :: 0 <= k < |q| ==> q[k].dts + latency < INT64_MAX
  }

  lemma EnqueueDue<T>(q: seq<Packet<T>>, x: T, dts: int, pcr: bool, room: int, retention: int, latency: int)
    requires DueBounded(q, latency) && dts + latency < INT64_MAX
    ensures DueBounded(Enqueue(q, x, dts, pcr, room, retention), latency)
  {
  }

  /** A datagram, and what went into it: the clock, and the PID table if PIDs were rewritten. */
  datatype Dispatch = Dispatch(wire: seq<Wire>, clock: int, remapping: bool, newpids: seq<int>) {
    ghost predicate Spells(raw: bool, udp: bool, seqnum: int, items: seq<Item>, room: int) {
      TableOk(newpids) && |items| <= room && wire == Image(raw, udp, seqnum, clock, Announced(items, remapping, newpids), room)
    }
  }

  /** The RTP sequence number of datagram n. */
  function SeqOf(udp: bool, seqnum0: Seq16, n: nat): Seq16 {
    if udp then seqnum0 else (seqnum0 + n) % 0x1_0000
  }

  ghost predicate Spelling(wires: seq<Dispatch>, sent: seq<Packet<Item>>, raw: bool, udp: bool, seqnum0: Seq16, seqnum: Seq16, room: int, latency: int) {
    && |wires| == |sent| && seqnum == SeqOf(udp, seqnum0, |wires|)
    && forall n :: 0 <= n < |wires| ==>
      wires[n].Spells(raw, udp, SeqOf(udp, seqnum0, n), sent[n].items, room) && sent[n].dts + latency <= wires[n].clock
  }

  lemma SpellingNext(wires: seq<Dispatch>, sent: seq<Packet<Item>>, raw: bool, udp: bool, seqnum0: Seq16, seqnum: Seq16, room: int, latency: int, d: Dispatch, p: Packet<Item>)
    requires Spelling(wires, sent, raw, udp, seqnum0, seqnum, room, latency)
    requires d.Spells(raw, udp, seqnum, p.items, room) && p.dts + latency <= d.clock
    ensures Spelling(wires + [d], sent + [p], raw, udp, seqnum0, if udp then seqnum else (seqnum + 1) % 0x1_0000, room, latency)
  {
    hide Dispatch.Spells;
    var ws, ps := wires + [d], sent + [p];
    forall n | 0 <= n < |ws| ensures ws[n].Spells(raw, udp, SeqOf(udp, seqnum0, n), ps[n].items, room) && ps[n].dts + latency <= ws[n].clock {
      assert n < |wires| ==> ws[n] == wires[n] && ps[n] == sent[n];
    }
  }

  lemma LogFlushed(ops: seq<Op>, room: int, retention: int)
    requires Run(ops, room, retention).queue != []
    ensures Run(ops + [PacketQueue.Flush], room, retention).sent == Run(ops, room, retention).sent + [Run(ops, room, retention).queue[0]]
  {
    RunAppend(ops, PacketQueue.Flush, room, retention);
  }

  /** What is put is not sent at once. */
  lemma {:induction false} LogPut(ops: seq<Op>, more: seq<Op>, room: int, retention: int)
    requires forall i :: 0 <= i < |more| ==> more[i].Put?
    ensures Run(ops + more, room, retention).sent == Run(ops, room, retention).sent
  {
    if more == [] {
      assert ops + more == ops;
    } else {
      hide Run;
      var n := |more| - 1;
      LogPut(ops, more[..n], room, retention);
      RunAppend(ops + more[..n], more[n], room, retention);
      LastApart(ops, more);
    }
  }

  lemma LastApart(ops: seq<Op>, more: seq<Op>)
    requires more != []
    ensures ops + more == ops + more[..|more| - 1] + [more[|more| - 1]]
  {
  }

  type Seq16 = n: int | 0 <= n < 0x1_0000

  /** output_t */
  class Output {
    const udp: bool
    const raw: bool
    const mtu: int
    const latency: int
    const retention: int
    const tables: Tables
    var valid: bool
    var remap: bool
    var passthrough: bool
    var pcrPid: int
    var packets: seq<Packet<Block>>
    var seqnum: Seq16
    var eit: Block?
    var eitOffset: int
    var eitCc: int
    ghost var ops: seq<Op>
    ghost var carry: Option<Ts>
    ghost var wires: seq<Dispatch>
    ghost var seqnum0: Seq16

    constructor (udp: bool, raw: bool, mtu: int, latency: int, retention: int, seqnum: Seq16, tables: Tables)
      requires TS_SIZE + RTP_HEADER_SIZE <= mtu
      ensures Ok() && packets == [] && eit == null && carry == None && valid && wires == [] && this.tables == tables
      ensures Spelled()
    {
      this.udp, this.raw, this.mtu, this.latency, this.retention := udp, raw, mtu, latency, retention;
      this.tables := tables;
      valid, remap, passthrough, pcrPid := true, false, false, 0;
      packets, this.seqnum, eit, eitOffset, eitCc := [], seqnum, null, 0, 0;
      ops, carry := [], None;
      wires, seqnum0 := [], seqnum;
    }

    function Room(): int {
      BlockCount(mtu, udp)
    }

    ghost function Log(): Log
      reads `ops
    {
      Run(ops, Room(), retention)
    }

    ghost predicate Ok()
      reads `packets, `ops
    {
      && TS_SIZE + RTP_HEADER_SIZE <= mtu
      && SameShape(packets, Log().queue)
      && DueBounded(packets, latency)
    }

    /** Datagram by datagram, what was sent is what left the queue: every TS packet that was put, in order,
        on its announced PID, padded, under sequence numbers that step by one, and no packet before it was due. */
    ghost predicate Spelled()
      reads `wires, `seqnum0, `seqnum, `ops
    {
      Spelling(wires, Log().sent, raw, udp, seqnum0, seqnum, Room(), latency)
    }

    /** The blocks the output holds on to. */
    ghost function Holds(): multiset<Block>
      reads `packets, `eit
    {
      multiset(Flat(packets)) + (if eit == null then multiset{} else multiset{eit})
    }

    lemma HoldsEit()
      ensures Holds() == if eit == null then multiset(Flat(packets)) else multiset(Flat(packets)) + multiset{eit}
    {
    }

    function Due(): int
      reads `packets
      requires packets != []
    {
      packets[0].dts + latency
    }

    lemma HeadFits()
      requires Ok() && packets != []
      ensures 1 <= |packets[0].items| <= Room()
    {
      PacketsWellStamped(ops, Room(), retention);
      assert Log().queue[0] in Log().queue;
      assert WellStamped(Log().queue[0], Room(), retention);
    }

    /** What was put into the packet that leaves next. */
    ghost function FirstItems(): (items: seq<Item>)
      reads `packets, `ops
      requires Ok() && packets != []
      ensures 1 <= |items| <= Room()
    {
      HeadFits();
      Log().queue[0].items
    }

    /** The queue part of output_Put. */
    method Append(b: Block) returns (dts: int)
      requires Ok() && b.dts + latency < INT64_MAX
      modifies this`packets, this`ops
      ensures Ok()
      ensures packets == Enqueue(old(packets), b, b.dts, b.ts.pcr, Room(), retention)
      ensures ops == old(ops) + [PacketQueue.Put(Item(b.dts, b.ts))]
      ensures Holds() == old(Holds()) + multiset{b}
      ensures packets != []
      ensures dts == packets[|packets| - 1].dts && dts + latency < INT64_MAX
      ensures old(packets) == [] ==> packets[0].dts == dts
      ensures old(packets) != [] ==> packets[0].dts == dts || packets[0].dts == old(packets)[0].dts
    {
      hide SameShape, DueBounded, Run, Flat;
      ghost var item := Item(b.dts, b.ts);
      EnqueueDue(packets, b, b.dts, b.ts.pcr, Room(), retention, latency);
      EnqueueShape(packets, Log().queue, b, item, b.dts, b.ts.pcr, Room(), retention);
      EnqueueFlat(packets, b, b.dts, b.ts.pcr, Room(), retention);
      RunAppend(ops, PacketQueue.Put(item), Room(), retention);
      var n := |packets|;
      if n > 0 && |packets[n - 1].items| < Room() && packets[n - 1].dts + retention > b.dts {
        dts := packets[n - 1].dts;
        if b.ts.pcr {
          dts := b.dts;
        }
        packets := packets[..n - 1] + [Packet(dts, packets[n - 1].items + [b])];
      } else {
        dts := b.dts;
        packets := packets + [Packet(dts, [b])];
      }
      ops := ops + [PacketQueue.Put(item)];
    }

    /** The end of output_Flush: the first packet is gone. */
    method Unlink()
      requires Ok() && packets != []
      modifies this`packets, this`ops
      ensures Ok() && packets == old(packets)[1..]
      ensures ops == old(ops) + [PacketQueue.Flush]
      ensures old(Holds()) == Holds() + multiset(old(packets)[0].items)
    {
      RunAppend(ops, PacketQueue.Flush, Room(), retention);
      packets := packets[1..];
      ops := ops + [PacketQueue.Flush];
    }
  }

  // ----- what goes on the wire -----

  /** The scatter list handed to writev refers to blocks, it does not copy them. */
  datatype Iov = RawIov | RtpIov | TsIov(block: Block) | PadIov

  datatype Wire = RawHeader(udpLength: int) | RtpHeader(seqnum: int, timestamp: int) | TsData(ts: Ts) | Padding

  function Octets(w: Wire): int {
    match w
    case RawHeader(_) => RAW_HEADER_SIZE
    case RtpHeader(_, _) => RTP_HEADER_SIZE
    case TsData(_) => TS_SIZE
    case Padding => TS_SIZE
  }

  function TotalOctets(ws: seq<Wire>): int {
    if ws == [] then 0 else TotalOctets(ws[..|ws| - 1]) + Octets(ws[|ws| - 1])
  }

  function IovOctets(iov: seq<Iov>): int {
    if iov == [] then 0
    else IovOctets(iov[..|iov| - 1]) +
         (match iov[|iov| - 1] case RawIov => RAW_HEADER_SIZE case RtpIov => RTP_HEADER_SIZE case _ => TS_SIZE)
  }

  function RawPart(raw: bool, udp: bool, room: int): seq<Wire> {
    if raw
    then [RawHeader((UDP_HEADER_SIZE + (if udp then 0 else RTP_HEADER_SIZE) + room * TS_SIZE) % 0x1_0000)]
    else []
  }

  function RtpPart(udp: bool, seqnum: int, clock: int): seq<Wire> {
    if udp then [] else [RtpHeader(seqnum, clock * 9 / 100 % 0x1_0000_0000)]
  }

  function Headers(raw: bool, udp: bool, seqnum: int, clock: int, room: int): seq<Wire> {
    RawPart(raw, udp, room) + RtpPart(udp, seqnum, clock)
  }

  /** The datagram for the TS packets `tss`: headers, the packets, and null packets up to `room`. */
  function Image(raw: bool, udp: bool, seqnum: int, clock: int, tss: seq<Ts>, room: int): seq<Wire>
    requires |tss| <= room
  {
    Headers(raw, udp, seqnum, clock, room) + TsPart(tss) + PadPart(room - |tss|)
  }

  /** What a receiver takes from a datagram: its TS packets that are not padding, in order. */
  function Shown(wire: seq<Wire>): (tss: seq<Ts>) {
    if wire == [] then []
    else Shown(wire[..|wire| - 1]) + (match wire[|wire| - 1] case TsData(ts) => [ts] case _ => [])
  }

  function HeaderCount(raw: bool, udp: bool): nat {
    (if raw then 1 else 0) + (if udp then 0 else 1)
  }

  /** A datagram has its headers first, the raw one with the length of all that is behind it, the RTP one with
      the time as ticks of 90 kHz; then `count` TS packets; then padding, up to `room`. */
  ghost predicate Framed(wire: seq<Wire>, raw: bool, udp: bool, seqnum: int, clock: int, count: nat, room: int) {
    var h := HeaderCount(raw, udp);
    && count <= room && |wire| == h + room
    && (raw ==> wire[0] == RawHeader((UDP_HEADER_SIZE + TotalOctets(wire[1..])) % 0x1_0000))
    && (!udp ==> wire[h - 1] == RtpHeader(seqnum, clock * 90_000 / 1_000_000 % 0x1_0000_0000))
    && (forall i :: h <= i < h + count ==> wire[i].TsData?)
    && (forall i :: h + count <= i < |wire| ==> wire[i].Padding?)
  }

  lemma {:induction false} ShownConcat(a: seq<Wire>, b: seq<Wire>)
    ensures Shown(a + b) == Shown(a) + Shown(b)
    decreases |b|
  {
    if b == [] {
      assert a + b == a;
    } else {
      assert (a + b)[..|a + b| - 1] == a + b[..|b| - 1];
      ShownConcat(a, b[..|b| - 1]);
    }
  }

  lemma {:induction false} ShownTs(tss: seq<Ts>)
    ensures Shown(TsPart(tss)) == tss
  {
    if tss != [] {
      ShownTs(tss[..|tss| - 1]);
      assert TsPart(tss)[..|tss| - 1] == TsPart(tss[..|tss| - 1]);
    }
  }

  lemma {:induction false} ShownNothing(ws: seq<Wire>)
    requires forall i :: 0 <= i < |ws| ==> !ws[i].TsData?
    ensures Shown(ws) == []
  {
    if ws != [] { ShownNothing(ws[..|ws| - 1]); }
  }

  /** A receiver gets back exactly the TS packets that a datagram was made of. */
  lemma ImageReads(raw: bool, udp: bool, seqnum: int, clock: int, tss: seq<Ts>, room: int)
    requires |tss| <= room
    ensures var d := Image(raw, udp, seqnum, clock, tss, room);
      Shown(d) == tss && Framed(d, raw, udp, seqnum, clock, |tss|, room)
  {
    ImageShows(raw, udp, seqnum, clock, tss, room);
    ImageFramed(raw, udp, seqnum, clock, tss, room);
  }

  lemma ImageShows(raw: bool, udp: bool, seqnum: int, clock: int, tss: seq<Ts>, room: int)
    requires |tss| <= room
    ensures Shown(Image(raw, udp, seqnum, clock, tss, room)) == tss
  {
    hide Shown;
    var head, pads := Headers(raw, udp, seqnum, clock, room), PadPart(room - |tss|);
    ShownConcat(head + TsPart(tss), pads);
    ShownConcat(head, TsPart(tss));
    ShownTs(tss);
    ShownNothing(head);
    ShownNothing(pads);
  }

  lemma ImageFramed(raw: bool, udp: bool, seqnum: int, clock: int, tss: seq<Ts>, room: int)
    requires |tss| <= room
    ensures Framed(Image(raw, udp, seqnum, clock, tss, room), raw, udp, seqnum, clock, |tss|, room)
  {
    hide TotalOctets;
    var rtp, body := RtpPart(udp, seqnum, clock), TsPart(tss) + PadPart(room - |tss|);
    var d := Image(raw, udp, seqnum, clock, tss, room);
    assert d == RawPart(raw, udp, room) + (rtp + body);
    if raw {
      assert d[1..] == rtp + body;
      TotalConcat(rtp, body);
      AllTsTotal(body);
      RtpTotal(udp, seqnum, clock);
    }
  }

  lemma RtpTotal(udp: bool, seqnum: int, clock: int)
    ensures TotalOctets(RtpPart(udp, seqnum, clock)) == if udp then 0 else RTP_HEADER_SIZE
  {
    if !udp { OneMeasure(RtpPart(udp, seqnum, clock)[0]); }
  }

  lemma {:induction false} TotalConcat(a: seq<Wire>, b: seq<Wire>)
    ensures TotalOctets(a + b) == TotalOctets(a) + TotalOctets(b)
    decreases |b|
  {
    if b == [] {
      assert a + b == a;
    } else {
      assert (a + b)[..|a + b| - 1] == a + b[..|b| - 1];
      TotalConcat(a, b[..|b| - 1]);
    }
  }

  lemma {:induction false} AllTsTotal(ws: seq<Wire>)
    requires forall w :: w in ws ==> Octets(w) == TS_SIZE
    ensures TotalOctets(ws) == |ws| * TS_SIZE
  {
    if ws != [] { AllTsTotal(ws[..|ws| - 1]); }
  }

  predicate IsTsPacket(w: Wire) {
    w.TsData? || w.Padding?
  }

  function TsCount(ws: seq<Wire>): nat {
    if ws == [] then 0 else TsCount(ws[..|ws| - 1]) + (if IsTsPacket(ws[|ws| - 1]) then 1 else 0)
  }

  lemma {:induction false} TsCountConcat(a: seq<Wire>, b: seq<Wire>)
    ensures TsCount(a + b) == TsCount(a) + TsCount(b)
    decreases |b|
  {
    if b == [] {
      assert a + b == a;
    } else {
      assert (a + b)[..|a + b| - 1] == a + b[..|b| - 1];
      TsCountConcat(a, b[..|b| - 1]);
    }
  }

  lemma {:induction false} AllTsCount(ws: seq<Wire>)
    requires forall w :: w in ws ==> IsTsPacket(w)
    ensures TsCount(ws) == |ws|
  {
    if ws != [] { AllTsCount(ws[..|ws| - 1]); }
  }

  lemma OneMeasure(w: Wire)
    ensures TotalOctets([w]) == Octets(w) && TsCount([w]) == if IsTsPacket(w) then 1 else 0
  {
    assert [w][..0] == [];
  }

  lemma HeadersMeasure(raw: bool, udp: bool, seqnum: int, clock: int, room: int)
    ensures var h := Headers(raw, udp, seqnum, clock, room);
      && TsCount(h) == 0 && |h| <= 2
      && TotalOctets(h) == (if raw then RAW_HEADER_SIZE else 0) + (if udp then 0 else RTP_HEADER_SIZE)
  {
    var r, t := RawPart(raw, udp, room), RtpPart(udp, seqnum, clock);
    if raw { OneMeasure(r[0]); }
    if !udp { OneMeasure(t[0]); }
    TotalConcat(r, t);
    TsCountConcat(r, t);
  }

  /** Every datagram carries exactly BlockCount TS packets, at least one, fits the MTU (the raw
      header is on top of it) and needs at most two elements more than TS packets. */
  lemma DatagramFits(raw: bool, udp: bool, mtu: int, seqnum: int, clock: int, tss: seq<Ts>)
    requires TS_SIZE + RTP_HEADER_SIZE <= mtu && |tss| <= BlockCount(mtu, udp)
    ensures var room := BlockCount(mtu, udp); var d := Image(raw, udp, seqnum, clock, tss, room);
      && 1 <= room && TsCount(d) == room && |d| <= room + 2
      && TotalOctets(d) - (if raw then RAW_HEADER_SIZE else 0) <= mtu
      && mtu - TS_SIZE < TotalOctets(d) - (if raw then RAW_HEADER_SIZE else 0)
      && Shown(d) == tss && Framed(d, raw, udp, seqnum, clock, |tss|, room)
  {
    hide TotalOctets, TsCount, Headers, Shown, Framed;
    ImageReads(raw, udp, seqnum, clock, tss, BlockCount(mtu, udp));
    var room := BlockCount(mtu, udp);
    var head := Headers(raw, udp, seqnum, clock, room);
    var body := TsPart(tss) + PadPart(room - |tss|);
    assert Image(raw, udp, seqnum, clock, tss, room) == head + body;
    HeadersMeasure(raw, udp, seqnum, clock, room);
    TotalConcat(head, body);
    AllTsTotal(body);
    TsCountConcat(head, body);
    AllTsCount(body);
  }

  // ----- rewriting PIDs -----

  predicate TableOk(newpids: seq<int>) {
    |newpids| == MAX_PIDS && forall i :: 0 <= i < MAX_PIDS && newpids[i] != UNUSED_PID ==> IsPid(newpids[i])
  }

  /** Where p ends up after being renumbered n times. */
  function Hops(newpids: seq<int>, n: nat, p: Pid): Pid
    requires TableOk(newpids)
  {
    if n == 0 then p else Renumber(newpids, Hops(newpids, n - 1, p))
  }

  /** A TS packet renumbered n times, if its output remaps. */
  function Hopped(ts: Ts, remapping: bool, newpids: seq<int>, n: nat): Ts
    requires TableOk(newpids)
  {
    if remapping then ts.(pid := Hops(newpids, n, ts.pid)) else ts
  }

  /** tmp_pid after n rounds: the PID before the last one, if that one changed it. */
  function Saved(newpids: seq<int>, n: nat, p: Pid): int
    requires TableOk(newpids) && n > 0
  {
    var q := Hops(newpids, n - 1, p);
    if newpids[q] == UNUSED_PID then UNUSED_PID else q
  }

  // ----- conservation of blocks -----

  /** `blocks` are all blocks in use or pooled, `lifo` the pooled ones, and `owners` counts, block by
      block, the places that hold on to it. */
  ghost predicate Conserved(blocks: set<Block>, lifo: seq<Block>, owners: multiset<Block>)
    reads blocks`refcount
  {
    && NoDup(lifo)
    && (forall b :: b in lifo ==> b in blocks && owners[b] == 0)
    && (forall b :: b in owners ==> b in blocks)
    && (forall b :: b in blocks && b !in lifo ==> b.refcount == owners[b])
  }

  ghost function Sum(bags: seq<multiset<Block>>): multiset<Block> {
    if bags == [] then multiset{} else bags[0] + Sum(bags[1..])
  }

  lemma {:induction false} SumOfNothing(bags: seq<multiset<Block>>)
    requires forall i :: 0 <= i < |bags| ==> bags[i] == multiset{}
    ensures Sum(bags) == multiset{}
  {
    if bags != [] { SumOfNothing(bags[1..]); }
  }

  lemma {:induction false} SumUpdate(bags: seq<multiset<Block>>, k: nat, bag: multiset<Block>)
    requires k < |bags|
    ensures Sum(bags[k := bag]) + bags[k] == Sum(bags) + bag
  {
    if k == 0 {
      assert bags[0 := bag][1..] == bags[1..];
      Shuffle(bag, Sum(bags[1..]), bags[0]);
    } else {
      var rest := bags[1..];
      SumUpdate(rest, k - 1, bag);
      assert bags[k := bag][1..] == rest[k - 1 := bag];
      assert (bags[0] + Sum(rest[k - 1 := bag])) + bags[k] == bags[0] + (Sum(rest[k - 1 := bag]) + bags[k]);
      assert bags[0] + (Sum(rest) + bag) == (bags[0] + Sum(rest)) + bag;
    }
  }

  lemma Shuffle(a: multiset<Block>, b: multiset<Block>, c: multiset<Block>)
    ensures (a + b) + c == (c + b) + a
  {
  }

  /** One output's holdings grew by `extra`, the others stayed. */
  lemma SumGrows(bags: seq<multiset<Block>>, bags': seq<multiset<Block>>, k: nat, extra: multiset<Block>)
    requires |bags| == |bags'| && k < |bags|
    requires forall i :: 0 <= i < |bags| && i != k ==> bags'[i] == bags[i]
    requires bags'[k] == bags[k] + extra
    ensures Sum(bags') == Sum(bags) + extra
  {
    SumUpdate(bags, k, bags'[k]);
    assert bags[k := bags'[k]] == bags';
    CancelBag(Sum(bags'), Sum(bags), bags[k], extra);
  }

  lemma CancelBag(a: multiset<Block>, b: multiset<Block>, c: multiset<Block>, d: multiset<Block>)
    requires a + c == b + (c + d)
    ensures a == b + d
  {
    forall x ensures a[x] == (b + d)[x] {
      assert (a + c)[x] == (b + (c + d))[x];
    }
  }

  lemma {:induction false} SumContains(bags: seq<multiset<Block>>, k: nat)
    requires k < |bags|
    ensures bags[k] <= Sum(bags)
  {
    if k > 0 { SumContains(bags[1..], k - 1); }
  }

  lemma {:induction false} SumContainsTwo(bags: seq<multiset<Block>>, i: nat, j: nat)
    requires i < j < |bags|
    ensures bags[i] + bags[j] <= Sum(bags)
  {
    if i == 0 {
      SumContains(bags[1..], j - 1);
    } else {
      SumContainsTwo(bags[1..], i - 1, j - 1);
    }
  }

  // ----- contents of the queues -----

  /** The blocks of queue q hold what was put into the output. */
  ghost predicate SameContent(q: seq<Packet<Block>>, s: seq<Packet<Item>>, blocks: set<Block>)
    reads blocks`ts
  {
    && SameShape(q, s)
    && forall k, j :: 0 <= k < |q| && 0 <= j < |q[k].items| ==>
         q[k].items[j] in blocks && q[k].items[j].ts == s[k].items[j].ts
  }

  lemma EnqueueContent(q: seq<Packet<Block>>, s: seq<Packet<Item>>, b: Block, item: Item, blocks: set<Block>, room: int, retention: int)
    requires SameContent(q, s, blocks)
    requires b in blocks && b.ts == item.ts
    ensures SameContent(Enqueue(q, b, item.dts, item.ts.pcr, room, retention),
                        Enqueue(s, item, item.dts, item.ts.pcr, room, retention), blocks)
  {
  }

  /** No block is twice in a packet. */
  ghost predicate OnceEach(q: seq<Packet<Block>>) {
    forall k :: 0 <= k < |q| ==> NoDup(q[k].items)
  }

  lemma EnqueueOnce(q: seq<Packet<Block>>, b: Block, dts: int, pcr: bool, room: int, retention: int)
    requires OnceEach(q) && (Joins(q, dts, room, retention) ==> b !in q[|q| - 1].items)
    ensures OnceEach(Enqueue(q, b, dts, pcr, room, retention))
  {
  }

  /** What was put besides: the TS packet, an EIT packet with its timestamp, and the TS packet, each if so. */
  ghost predicate Gives(ops: seq<Op>, ops': seq<Op>, item: Item, first: bool, eit: Option<Ts>, last: bool) {
    ops' == ops
      + (if first then [PacketQueue.Put(item)] else [])
      + (if eit.Some? then [PacketQueue.Put(Item(item.dts, eit.value))] else [])
      + (if last then [PacketQueue.Put(item)] else [])
  }

  class Mux {
    const dup: Output
    const outputs: seq<Output>
    const globalRemap: bool
    var lifo: seq<Block>
    var blockCount: nat
    var nextSend: int
    var wallclock: int
    var timer: Option<int>
    ghost const all: seq<Output>
    ghost var blocks: set<Block>
    ghost var owners: multiset<Block>
    ghost var held: multiset<Block>
    ghost var bags: seq<multiset<Block>>

    ghost predicate Pooling()
      reads `blockCount, `lifo, `blocks, `owners, blocks`refcount
    {
      blockCount == |lifo| <= CLDVB_MAX_BLOCKS && Conserved(blocks, lifo, owners)
    }

    /** A block's owners are the callers that hold it and the outputs. */
    ghost predicate Linked()
      reads `bags, `owners, `held, all`packets, all`eit
    {
      && all == [dup] + outputs && NoDup(all) && |bags| == |all|
      && owners == held + Sum(bags)
      && forall i :: 0 <= i < |all| ==> bags[i] == all[i].Holds()
    }

    ghost predicate AllOk()
      reads all`packets, all`ops
    {
      forall i :: 0 <= i < |all| ==> all[i].Ok()
    }

    ghost predicate Inv()
      reads `blockCount, `lifo, `blocks, `owners, `bags, `held, all, blocks`refcount
    {
      Pooling() && Linked() && AllOk()
    }

    predicate Remapping(o: Output)
      reads o`remap
    {
      globalRemap || o.remap
    }

    constructor (dup: Output, outputs: seq<Output>, globalRemap: bool, now: int)
      requires NoDup([dup] + outputs)
      requires forall o :: o in [dup] + outputs ==> o.Ok() && o.packets == [] && o.eit == null && o.carry == None
      ensures Inv() && blocks == {} && owners == held == multiset{}
      ensures Faithful() && LeakFree() && Armed()
      ensures this.dup == dup && this.outputs == outputs && all == [dup] + outputs && this.globalRemap == globalRemap
    {
      this.dup, this.outputs, this.globalRemap := dup, outputs, globalRemap;
      lifo, blockCount := [], 0;
      nextSend, wallclock, timer := INT64_MAX, now, None;
      all := [dup] + outputs;
      blocks, owners, held := {}, multiset{}, multiset{};
      bags := seq(1 + |outputs|, _ => multiset{});
      new;
      hide Inv, Faithful, LeakFree, Armed, Output.Ok, NoDup;
      assert forall i :: 0 <= i < |all| ==> all[i] in [dup] + outputs;
      NothingYet();
    }

    lemma NothingYet()
      requires all == [dup] + outputs && NoDup(all) && |bags| == |all| && blocks == {} && owners == held == multiset{}
      requires lifo == [] && blockCount == 0 && nextSend == INT64_MAX
      requires forall i :: 0 <= i < |all| ==>
        bags[i] == multiset{} && all[i].Ok() && all[i].packets == [] && all[i].eit == null && all[i].carry == None
      ensures Inv() && Faithful() && LeakFree() && Armed()
    {
      hide Output.Ok, Linked, Faithful, NoDup;
      NothingHeld();
      NothingQueued();
      NothingPooled();
    }

    lemma NothingPooled()
      requires blocks == {} && owners == multiset{} && lifo == [] && blockCount == 0
      ensures Pooling()
    {
    }

    lemma NothingHeld()
      requires all == [dup] + outputs && NoDup(all) && |bags| == |all| && owners == held == multiset{}
      requires forall i :: 0 <= i < |all| ==> bags[i] == multiset{} && all[i].packets == [] && all[i].eit == null
      ensures Linked()
    {
      SumOfNothing(bags);
    }

    lemma NothingQueued()
      requires forall i :: 0 <= i < |all| ==> all[i].Ok() && all[i].packets == [] && all[i].eit == null && all[i].carry == None
      ensures Faithful()
    {
      hide Run;
    }

    // ----- the pool -----

    method BlockNew() returns (b: Block)
      requires Pooling()
      modifies this`lifo, this`blockCount, this`blocks, this`owners, this`held, lifo`refcount
      ensures Pooling()
      ensures b in blocks && b !in lifo && b.refcount == 1
      ensures old(owners)[b] == 0 && owners == old(owners) + multiset{b} && held == old(held) + multiset{b}
      ensures blocks == old(blocks) + {b} && (b in old(lifo) || fresh(b))
      ensures forall c :: c in old(lifo) ==> c in lifo || c == b
    {
      if blockCount > 0 {
        b := lifo[0];
        lifo := lifo[1..];
        blockCount := blockCount - 1;
      } else {
        b := new Block();
        blocks := blocks + {b};
      }
      b.refcount := 1;
      owners, held := owners + multiset{b}, held + multiset{b};
    }

    /** block_Delete: b must be unowned, its count is of no interest. */
    method BlockDelete(b: Block)
      requires blockCount == |lifo| <= CLDVB_MAX_BLOCKS && Conserved(blocks - {b}, lifo, owners)
      requires b in blocks && b !in lifo && owners[b] == 0
      modifies this`lifo, this`blockCount, this`blocks
      ensures Pooling()
      ensures if old(blockCount) >= CLDVB_MAX_BLOCKS
        then lifo == old(lifo) && blocks == old(blocks) - {b}
        else lifo == [b] + old(lifo) && blocks == old(blocks)
    {
      if blockCount >= CLDVB_MAX_BLOCKS {
        blocks := blocks - {b};
        return;
      }
      lifo := [b] + lifo;
      blockCount := blockCount + 1;
    }

    // ----- output_Flush -----

    /** One round of the first loop of output_Flush. */
    method RewriteBlock(o: Output, b: Block)
      requires TableOk(o.tables.newpids[..])
      modifies b`ts, b`tmpPid
      ensures !Remapping(o) ==> b.ts == old(b.ts)
      ensures Remapping(o) ==>
        && b.ts == old(b.ts).(pid := Renumber(o.tables.newpids[..], old(b.ts.pid)))
        && b.tmpPid == Saved(o.tables.newpids[..], 1, old(b.ts.pid))
    {
      if globalRemap || o.remap {
        var pid := b.ts.pid;
        b.tmpPid := UNUSED_PID;
        if o.tables.newpids[pid] != UNUSED_PID {
          var newpid := o.tables.newpids[pid];
          b.ts := b.ts.(pid := newpid);
          b.tmpPid := pid;
        }
      }
    }

    method RewriteStep(o: Output, b: Block, ghost blks: seq<Block>, ghost done: multiset<Block>, ghost orig: map<Block, Ts>, ghost np: seq<int>)
      requires np == o.tables.newpids[..] && TableOk(np) && b in blks
      requires if Remapping(o) then Renumbered(blks, done, orig, np) else Untouched(blks, orig)
      modifies b`ts, b`tmpPid
      ensures np == o.tables.newpids[..]
      ensures if Remapping(o) then Renumbered(blks, done + multiset{b}, orig, np) else Untouched(blks, orig)
    {
      RewriteBlock(o, b);
    }

    /** The first loop of output_Flush: new PIDs are written into the blocks themselves. */
    method Rewrite(o: Output, blks: seq<Block>, ghost orig: map<Block, Ts>, ghost np: seq<int>) returns (iov: seq<Iov>)
      requires np == o.tables.newpids[..] && TableOk(np)
      requires Untouched(blks, orig)
      modifies (set b | b in blks)`ts, (set b | b in blks)`tmpPid
      ensures |iov| == |blks| && forall k :: 0 <= k < |blks| ==> iov[k] == TsIov(blks[k])
      ensures if Remapping(o) then Renumbered(blks, multiset(blks), orig, np) else Untouched(blks, orig)
    {
      iov := [];
      var i := 0;
      ghost var done := multiset{};
      while i < |blks|
        invariant 0 <= i <= |blks|
        invariant |iov| == i && forall k :: 0 <= k < i ==> iov[k] == TsIov(blks[k])
        invariant done == multiset(blks[..i]) && np == o.tables.newpids[..]
        invariant if Remapping(o) then Renumbered(blks, done, orig, np) else Untouched(blks, orig)
      {
        SplitAt(blks, i);
        RewriteStep(o, blks[i], blks, done, orig, np);
        done := done + multiset{blks[i]};
        iov := iov + [TsIov(blks[i])];
        i := i + 1;
      }
      SplitEnds(blks);
    }

    /** Dropping one reference; the last one returns the block to the pool.  A block that somebody
        still wants gets back the PID that the last renumbering replaced, if `restore`. */
    method Drop(b: Block, restore: bool)
      requires Pooling() && b in owners
      requires restore && b.tmpPid != UNUSED_PID ==> IsPid(b.tmpPid)
      modifies this`lifo, this`blockCount, this`blocks, this`owners, b`refcount, b`ts
      ensures Pooling() && owners == old(owners) - multiset{b}
      ensures b in owners ==> blocks == old(blocks) && lifo == old(lifo) && Restored(b, restore, old(b.ts))
      ensures b !in owners ==> b.ts == old(b.ts)
      ensures b !in owners && old(blockCount) < CLDVB_MAX_BLOCKS ==> lifo == [b] + old(lifo) && blocks == old(blocks)
      ensures b !in owners && old(blockCount) >= CLDVB_MAX_BLOCKS ==> lifo == old(lifo) && blocks == old(blocks) - {b}
    {
      b.refcount := b.refcount - 1;
      owners := owners - multiset{b};
      if b.refcount == 0 {
        BlockDelete(b);
      } else if restore {
        if b.tmpPid != UNUSED_PID {
          b.ts := b.ts.(pid := b.tmpPid);
        }
      }
    }

    /** In the middle of the last loop of output_Flush: the references in `done` are dropped, those
        in `rest` are not yet. */
    ghost predicate Releasing(done: multiset<Block>, rest: multiset<Block>, start: Start)
      reads `blockCount, `lifo, `blocks, `owners, blocks`refcount
    {
      && Pooling()
      && owners + done == start.owners && rest <= owners
      && blocks <= start.blocks
      && (forall b :: b in done && b !in owners && b in blocks ==> b in lifo)
      && (forall b :: b in start.lifo && b in blocks ==> b in lifo)
    }

    ghost predicate Restoring(done: multiset<Block>, rest: multiset<Block>, start: Start, remapping: bool)
      reads `owners, start.ts.Keys`ts, start.ts.Keys`tmpPid
    {
      && (forall b :: b in rest ==> b in start.ts) && (forall b :: b in done ==> b in start.ts)
      && (forall b :: b in owners && b in done ==> Restored(b, remapping, start.ts[b]))
      && (forall b :: b in rest && b !in done ==> b.ts == start.ts[b])
      && (remapping ==> forall b :: b in rest ==> b.tmpPid == UNUSED_PID || IsPid(b.tmpPid))
    }

    method DropRestoring(b: Block, remapping: bool, ghost done: multiset<Block>, ghost rest: multiset<Block>, ghost start: Start)
      requires Pooling() && b in owners && Restoring(done, rest + multiset{b}, start, remapping)
      modifies this`lifo, this`blockCount, this`blocks, this`owners, b`refcount, b`ts
      ensures Pooling() && owners == old(owners) - multiset{b}
      ensures if b in owners then blocks == old(blocks) && lifo == old(lifo)
        else (lifo == [b] + old(lifo) && blocks == old(blocks)) || (lifo == old(lifo) && blocks == old(blocks) - {b})
      ensures Restoring(done + multiset{b}, rest, start, remapping)
    {
      hide Pooling;
      Drop(b, remapping);
    }

    method ReleaseStep(b: Block, remapping: bool, ghost done: multiset<Block>, ghost rest: multiset<Block>, ghost start: Start)
      requires Releasing(done, rest + multiset{b}, start) && Restoring(done, rest + multiset{b}, start, remapping)
      modifies this`lifo, this`blockCount, this`blocks, this`owners, b`refcount, b`ts
      ensures Releasing(done + multiset{b}, rest, start) && Restoring(done + multiset{b}, rest, start, remapping)
    {
      hide Pooling, Restoring;
      DropRestoring(b, remapping, done, rest, start);
    }

    /** The last loop of output_Flush. */
    method Release(blks: seq<Block>, restore: bool, ghost start: Start)
      requires Releasing(multiset{}, multiset(blks), start) && Restoring(multiset{}, multiset(blks), start, restore)
      modifies this`lifo, this`blockCount, this`blocks, this`owners
      modifies (set b | b in blks)`refcount, (set b | b in blks)`ts
      ensures Releasing(multiset(blks), multiset{}, start) && Restoring(multiset(blks), multiset{}, start, restore)
    {
      hide Releasing, Restoring, Pooling;
      var i := 0;
      ghost var done, rest := multiset{}, multiset(blks);
      SplitEnds(blks);
      while i < |blks|
        invariant 0 <= i <= |blks|
        invariant done == multiset(blks[..i]) && rest == multiset(blks[i..])
        invariant Releasing(done, rest, start)
        invariant Restoring(done, rest, start, restore)
      {
        SplitAt(blks, i);
        rest := multiset(blks[i + 1..]);
        ReleaseStep(blks[i], restore, done, rest, start);
        done := done + multiset{blks[i]};
        i := i + 1;
      }
    }

    // ----- output_Put -----

    /** nextSend is no later than any due packet, and the timer is armed for it. */
    ghost predicate Armed()
      reads `nextSend, `timer, all`valid, all`packets
    {
      && nextSend <= INT64_MAX
      && (nextSend < INT64_MAX ==> timer == Some(nextSend))
      && forall i :: 0 <= i < |all| && all[i].valid && all[i].packets != [] ==> nextSend <= all[i].Due()
    }

    /** Every queued block holds what was put, and no block is twice in a packet whose PIDs will be
        rewritten. */
    ghost predicate QueuesFaithful()
      reads `blocks, all`packets, all`ops, all`remap, blocks`ts
    {
      forall i :: 0 <= i < |all| ==>
        && SameContent(all[i].packets, all[i].Log().queue, blocks)
        && (Remapping(all[i]) ==> OnceEach(all[i].packets))
    }

    /** A partly filled EIT packet has no other owner, and is as the section stream left it. */
    ghost predicate EitOk(o: Output)
      reads `blocks, `owners, o`eit, o`eitOffset, o`carry, blocks`ts
    {
      && (o.eit == null <==> o.carry.None?)
      && (o.eit != null ==>
            && o.eit in blocks && owners[o.eit] == 1
            && o.carry == Some(o.eit.ts)
            && Sections.Carries(o.eit.ts) && o.eitOffset == Sections.Size(o.eit.ts))
    }

    ghost predicate EitFaithful()
      reads `blocks, `owners, all`eit, all`eitOffset, all`carry, blocks`ts
    {
      forall i :: 0 <= i < |all| ==> EitOk(all[i])
    }

    ghost predicate Faithful()
      reads `blocks, `owners, all, blocks`ts
    {
      QueuesFaithful() && EitFaithful()
    }

    /** Whatever was sent is what was put. */
    ghost predicate AllSpelled()
      reads all`wires, all`seqnum0, all`seqnum, all`ops
    {
      forall i :: 0 <= i < |all| ==> all[i].Spelled()
    }

    /** Every block outside the pool has an owner. */
    ghost predicate LeakFree()
      reads `blocks, `lifo, `owners
    {
      forall b :: b in blocks ==> b in lifo || b in owners
    }

    /** One more reference. */
    method Acquire(b: Block)
      requires Pooling() && b in blocks && b !in lifo
      modifies this`owners, b`refcount
      ensures Pooling() && owners == old(owners) + multiset{b}
    {
      b.refcount := b.refcount + 1;
      owners := owners + multiset{b};
    }

    /** Output k's holdings grew by `more`, and so did the owners. */
    ghost method BagGrows(k: nat, more: multiset<Block>)
      requires all == [dup] + outputs && NoDup(all) && |bags| == |all| && k < |all|
      requires forall i :: 0 <= i < |all| && i != k ==> bags[i] == all[i].Holds()
      requires all[k].Holds() == bags[k] + more
      requires owners == held + Sum(bags) + more
      modifies `bags
      ensures Linked()
    {
      hide Sum, Output.Holds;
      var bags' := bags[k := all[k].Holds()];
      SumGrows(bags, bags', k, more);
      assert held + Sum(bags) + more == held + (Sum(bags) + more);
      bags := bags';
    }

    /** Output k's holdings shrank by `less`, and so did the owners. */
    ghost method BagShrinks(k: nat, less: multiset<Block>)
      requires all == [dup] + outputs && NoDup(all) && |bags| == |all| && k < |all|
      requires forall i :: 0 <= i < |all| && i != k ==> bags[i] == all[i].Holds()
      requires all[k].Holds() + less == bags[k]
      requires owners + less == held + Sum(bags)
      modifies `bags
      ensures Linked()
    {
      hide Sum, Output.Holds;
      var bags' := bags[k := all[k].Holds()];
      SumGrows(bags', bags, k, less);
      assert held + (Sum(bags') + less) == (held + Sum(bags')) + less;
      CancelBag(owners, held + Sum(bags'), less, multiset{});
      bags := bags';
    }

    /** The reference and queue part of output_Put. */
    method EnlistLinked(o: Output, b: Block) returns (dts: int)
      requires Pooling() && Linked() && o.Ok() && o in all && b in blocks && b !in lifo
      requires b.dts + o.latency < INT64_MAX
      modifies this`owners, this`bags, o`packets, o`ops, b`refcount
      ensures Pooling() && Linked() && o.Ok()
      ensures owners == old(owners) + multiset{b}
      ensures o.ops == old(o.ops) + [PacketQueue.Put(Item(b.dts, b.ts))]
      ensures o.packets == Enqueue(old(o.packets), b, b.dts, b.ts.pcr, o.Room(), o.retention)
      ensures o.packets != [] && dts + o.latency < INT64_MAX
      ensures old(o.packets) == [] ==> o.packets[0].dts == dts
      ensures old(o.packets) != [] ==> o.packets[0].dts == dts || o.packets[0].dts == old(o.packets)[0].dts
    {
      hide Pooling, Linked, Output.Ok, Output.Holds, Enqueue, Sum, NoDup;
      LinkedFacts();
      ghost var k :| 0 <= k < |all| && all[k] == o;
      OnlyAt(k);
      Acquire(b);
      dts := o.Append(b);
      BagGrows(k, multiset{b});
    }

    method Enlist(o: Output, b: Block) returns (dts: int)
      requires Inv() && o in all && b in blocks && b !in lifo
      requires b.dts + o.latency < INT64_MAX
      modifies this`owners, this`bags, o`packets, o`ops, b`refcount
      ensures Inv()
      ensures owners == old(owners) + multiset{b}
      ensures o.ops == old(o.ops) + [PacketQueue.Put(Item(b.dts, b.ts))]
      ensures o.packets == Enqueue(old(o.packets), b, b.dts, b.ts.pcr, o.Room(), o.retention)
      ensures o.packets != [] && dts + o.latency < INT64_MAX
      ensures old(o.packets) == [] ==> o.packets[0].dts == dts
      ensures old(o.packets) != [] ==> o.packets[0].dts == dts || o.packets[0].dts == old(o.packets)[0].dts
    {
      hide Pooling, Linked, Output.Ok, Enqueue;
      InvOk(o);
      dts := EnlistLinked(o, b);
    }

    /** b may be put into o without ending up twice in a packet whose PIDs will be rewritten. */
    ghost predicate PutsOnce(o: Output, b: Block)
      reads o, b
    {
      Remapping(o) && Joins(o.packets, b.dts, o.Room(), o.retention) ==> b !in o.packets[|o.packets| - 1].items
    }

    /** output_Put */
    method Put(o: Output, b: Block)
      requires Inv() && o in all && b in blocks && b !in lifo
      requires b.dts + o.latency < INT64_MAX
      modifies this`owners, this`bags, this`nextSend, this`timer, o`packets, o`ops, b`refcount
      ensures Inv()
      ensures owners == old(owners) + multiset{b}
      ensures o.ops == old(o.ops) + [PacketQueue.Put(Item(b.dts, b.ts))]
      ensures o.packets == Enqueue(old(o.packets), b, b.dts, b.ts.pcr, o.Room(), o.retention)
      ensures old(Armed()) ==> Armed()
      ensures old(QueuesFaithful()) && old(PutsOnce(o, b)) ==> QueuesFaithful()
    {
      hide Pooling, Linked, AllOk, Enqueue, SameContent, OnceEach, Run, Joins;
      var dts := Enlist(o, b);
      if nextSend > dts + o.latency {
        nextSend := dts + o.latency;
        timer := Some(nextSend);
      }
      if old(Armed()) {
        forall i | 0 <= i < |all| && all[i].valid && all[i].packets != [] ensures nextSend <= all[i].Due() {
          assert all[i] != o ==> all[i].packets == old(all[i].packets);
        }
      }
      if old(QueuesFaithful()) && old(PutsOnce(o, b)) {
        var item := Item(b.dts, b.ts);
        RunAppend(old(o.ops), PacketQueue.Put(item), o.Room(), o.retention);
        EnqueueContent(old(o.packets), old(o.Log().queue), b, item, blocks, o.Room(), o.retention);
        if Remapping(o) {
          EnqueueOnce(old(o.packets), b, b.dts, b.ts.pcr, o.Room(), o.retention);
        }
        forall i | 0 <= i < |all|
          ensures SameContent(all[i].packets, all[i].Log().queue, blocks)
          ensures Remapping(all[i]) ==> OnceEach(all[i].packets)
        {
          assert all[i] != o ==> all[i].packets == old(all[i].packets) && all[i].Log() == old(all[i].Log());
        }
      }
    }

    // ----- the whole of output_Flush -----

    /** The loop that sums up the payload for the raw header: everything behind it. */
    method PayloadLength(iov: seq<Iov>) returns (length: int)
      ensures iov != [] ==> length == IovOctets(iov[1..])
    {
      length := 0;
      var i := 1;
      while i < |iov|
        invariant 1 <= i && (iov != [] ==> i <= |iov| && length == IovOctets(iov[1..i]))
        decreases |iov| - i
      {
        assert iov[1..i + 1][..i - 1] == iov[1..i];
        length := length + (match iov[i] case RawIov => RAW_HEADER_SIZE case RtpIov => RTP_HEADER_SIZE case _ => TS_SIZE);
        i := i + 1;
      }
      assert iov != [] ==> iov[1..i] == iov[1..];
    }

    /** The kernel gathers what the list refers to at the moment of the call. */
    method Writev(iov: seq<Iov>, udpLength: int, seqnum: int, timestamp: int) returns (wire: seq<Wire>)
      ensures |wire| == |iov|
      ensures forall i :: 0 <= i < |iov| ==> wire[i] == Gathered(iov[i], udpLength, seqnum, timestamp)
    {
      wire := [];
      var i := 0;
      while i < |iov|
        invariant 0 <= i <= |iov| && |wire| == i
        invariant forall k :: 0 <= k < i ==> wire[k] == Gathered(iov[k], udpLength, seqnum, timestamp)
      {
        wire := wire + [Gathered(iov[i], udpLength, seqnum, timestamp)];
        i := i + 1;
      }
    }

    /** The clock is an input; readings stay below INT64_MAX. */
    method MDate() returns (now: int)
      ensures now < INT64_MAX
    {
      now :| now < INT64_MAX;
    }

    /** Null packets up to the size of a datagram. */
    method Pad(count: int, room: int) returns (pads: seq<Iov>)
      requires count <= room
      ensures |pads| == room - count && forall i :: 0 <= i < |pads| ==> pads[i] == PadIov
    {
      pads := [];
      var i := count;
      while i < room
        invariant count <= i <= room && |pads| == i - count
        invariant forall k :: 0 <= k < |pads| ==> pads[k] == PadIov
      {
        pads := pads + [PadIov];
        i := i + 1;
      }
    }

    /** The list is complete: patch the raw header and hand it to the kernel. */
    method Send(o: Output, head: seq<Iov>, ts: seq<Iov>, pads: seq<Iov>, blks: seq<Block>, seqnum: int) returns (wire: seq<Wire>)
      requires head == (if o.raw then [RawIov] else []) + (if o.udp then [] else [RtpIov])
      requires |ts| == |blks| && forall i :: 0 <= i < |ts| ==> ts[i] == TsIov(blks[i])
      requires forall i :: 0 <= i < |pads| ==> pads[i] == PadIov
      requires |ts| + |pads| == o.Room()
      ensures wire == Image(o.raw, o.udp, seqnum, wallclock, Contents(blks), o.Room())
      ensures Shown(wire) == Contents(blks) && Framed(wire, o.raw, o.udp, seqnum, wallclock, |blks|, o.Room())
    {
      hide Shown, Framed, Headers, Contents, TsPart, PadPart, IovOctets;
      var timestamp := wallclock * 9 / 100 % 0x1_0000_0000;
      var iov := head + ts + pads;
      var udpLength := 0;
      if o.raw {
        var payload := PayloadLength(iov);
        udpLength := (UDP_HEADER_SIZE + payload) % 0x1_0000;
        assert iov[1..] == head[1..] + ts + pads;
        PayloadTotal(head[1..], ts, pads);
      }
      wire := Writev(iov, udpLength, seqnum, timestamp);
      GatherImage(head, ts, pads, wire, blks, udpLength, seqnum, timestamp);
      HeaderImage(o.raw, o.udp, udpLength, seqnum, wallclock, o.Room());
      ImageReads(o.raw, o.udp, seqnum, wallclock, Contents(blks), o.Room());
    }

    /** Building and sending the datagram for the blocks of a packet. */
    method Transmit(o: Output, blks: seq<Block>, ghost orig: map<Block, Ts>, ghost np: seq<int>) returns (wire: seq<Wire>)
      requires np == o.tables.newpids[..] && TableOk(np) && Untouched(blks, orig)
      requires |blks| <= o.Room()
      modifies o`seqnum, (set b | b in blks)`ts, (set b | b in blks)`tmpPid
      ensures if Remapping(o) then Renumbered(blks, multiset(blks), orig, np) else Untouched(blks, orig)
      ensures wire == Image(o.raw, o.udp, old(o.seqnum), wallclock, Contents(blks), o.Room())
      ensures o.seqnum == if o.udp then old(o.seqnum) else (old(o.seqnum) + 1) % 0x1_0000
    {
      hide Renumbered, Untouched, Image, Contents;
      var head: seq<Iov> := [];
      var seqnum := o.seqnum;
      if o.raw {
        head := head + [RawIov];
      }
      if !o.udp {
        o.seqnum := (o.seqnum + 1) % 0x1_0000;
        head := head + [RtpIov];
      }
      var ts := Rewrite(o, blks, orig, np);
      var pads := Pad(|blks|, o.Room());
      wire := Send(o, head, ts, pads, blks, seqnum);
    }

    lemma QueuedOwned(i: nat, k: nat, j: nat)
      requires Linked() && i < |all| && k < |all[i].packets| && j < |all[i].packets[k].items|
      ensures all[i].packets[k].items[j] in owners
    {
      FlatHas(all[i].packets, k, j);
      SumContains(bags, i);
    }

    lemma EitOwned(i: nat)
      requires Linked() && i < |all| && all[i].eit != null
      ensures all[i].eit in owners
    {
      SumContains(bags, i);
    }

    lemma HeadOwned(i: nat)
      requires Linked() && i < |all| && all[i].packets != []
      ensures multiset(all[i].packets[0].items) <= owners
    {
      var q := all[i].packets;
      assert Flat(q) == q[0].items + Flat(q[1..]);
      SumContains(bags, i);
    }

    /** Afterwards a block that is still wanted is renumbered once less often than it occurs. */
    ghost predicate GivenBack(blks: seq<Block>, orig: map<Block, Ts>, remapping: bool, newpids: seq<int>)
      requires TableOk(newpids)
      reads `owners, blks`ts
    {
      forall b :: b in blks && b in owners ==>
        b in orig && b.ts == Hopped(orig[b], remapping, newpids, multiset(blks)[b] - 1)
    }

    lemma RestoringGivesBack(blks: seq<Block>, orig: map<Block, Ts>, start: Start, remapping: bool, newpids: seq<int>)
      requires TableOk(newpids)
      requires Restoring(multiset(blks), multiset{}, start, remapping)
      requires Marked(blks, orig, start.ts, remapping, newpids)
      ensures GivenBack(blks, orig, remapping, newpids)
    {
      forall b | b in blks && b in owners
        ensures b.ts == Hopped(orig[b], remapping, newpids, multiset(blks)[b] - 1)
      {
        assert b in multiset(blks);
        assert Restored(b, remapping, start.ts[b]);
      }
    }

    lemma ReadyToRelease(blks: seq<Block>, orig: map<Block, Ts>, start: Start, remapping: bool, newpids: seq<int>)
      requires TableOk(newpids)
      requires if remapping then Renumbered(blks, multiset(blks), orig, newpids) else Untouched(blks, orig)
      requires forall b :: b in blks ==> b in start.ts && start.ts[b] == b.ts
      ensures Restoring(multiset{}, multiset(blks), start, remapping)
      ensures Marked(blks, orig, start.ts, remapping, newpids)
      ensures Sent(Contents(blks), blks, orig, remapping, newpids)
    {
      assert forall b :: b in multiset(blks) ==> b in blks && multiset(blks)[b] > 0;
    }

    lemma ReleasedLeakFree(done: multiset<Block>, start: Start)
      requires Releasing(done, multiset{}, start)
      requires forall b :: b in start.blocks ==> b in start.lifo || b in start.owners
      ensures LeakFree()
    {
      forall b | b in blocks ensures b in lifo || b in owners {
        assert b in start.owners ==> b in owners || b in done;
      }
    }

    lemma StartReleasing(blks: seq<Block>, start: Start)
      requires Pooling() && multiset(blks) <= owners
      requires start.owners == owners && start.blocks == blocks && start.lifo == lifo
      ensures Releasing(multiset{}, multiset(blks), start)
    {
    }

    lemma Released(done: multiset<Block>, start: Start)
      requires Releasing(done, multiset{}, start)
      ensures Pooling() && owners + done == start.owners && blocks <= start.blocks
    {
    }

    /** The first half of output_Flush; `start` remembers where its last loop starts from. */
    method TransmitAndMark(o: Output, blks: seq<Block>, ghost orig: map<Block, Ts>, ghost np: seq<int>) returns (wire: seq<Wire>, ghost tss: seq<Ts>, ghost start: Start)
      requires np == o.tables.newpids[..] && TableOk(np) && Untouched(blks, orig)
      requires |blks| <= o.Room()
      modifies o`seqnum, (set b | b in blks)`ts, (set b | b in blks)`tmpPid
      ensures |tss| == |blks| && wire == Image(o.raw, o.udp, old(o.seqnum), wallclock, tss, o.Room())
      ensures o.seqnum == if o.udp then old(o.seqnum) else (old(o.seqnum) + 1) % 0x1_0000
      ensures Sent(tss, blks, orig, Remapping(o), np)
      ensures start.blocks == blocks && start.lifo == lifo && start.owners == owners
      ensures Restoring(multiset{}, multiset(blks), start, Remapping(o))
      ensures Marked(blks, orig, start.ts, Remapping(o), np)
    {
      hide Image, Renumbered, Untouched, Restoring, Sent, Marked;
      wire := Transmit(o, blks, orig, np);
      tss := Contents(blks);
      start := Start(blocks, lifo, owners, map b: Block | b in blks :: b.ts);
      ReadyToRelease(blks, orig, start, Remapping(o), np);
    }

    /** output_Flush but for the queue. */
    method SendAndRelease(o: Output, blks: seq<Block>, ghost orig: map<Block, Ts>, ghost np: seq<int>) returns (wire: seq<Wire>, now: int, ghost tss: seq<Ts>)
      requires np == o.tables.newpids[..] && TableOk(np) && Untouched(blks, orig)
      requires |blks| <= o.Room()
      requires Pooling() && multiset(blks) <= owners
      modifies `lifo, `blockCount, `blocks, `owners, o`seqnum
      modifies (set b | b in blks)`refcount, (set b | b in blks)`ts, (set b | b in blks)`tmpPid
      ensures Pooling() && owners + multiset(blks) == old(owners)
      ensures now < INT64_MAX && blocks <= old(blocks)
      ensures |tss| == |blks| && wire == Image(o.raw, o.udp, old(o.seqnum), wallclock, tss, o.Room())
      ensures Sent(tss, blks, orig, Remapping(o), np)
      ensures GivenBack(blks, orig, Remapping(o), np)
      ensures o.seqnum == if o.udp then old(o.seqnum) else (old(o.seqnum) + 1) % 0x1_0000
      ensures old(LeakFree()) ==> LeakFree()
    {
      hide Pooling, Image, Untouched, Restoring, Releasing, Sent, GivenBack, Marked;
      ghost var start;
      wire, tss, start := TransmitAndMark(o, blks, orig, np);
      now := MDate();
      StartReleasing(blks, start);
      Release(blks, globalRemap || o.remap, start);
      RestoringGivesBack(blks, orig, start, Remapping(o), np);
      Released(multiset(blks), start);
      if old(LeakFree()) {
        ReleasedLeakFree(multiset(blks), start);
      }
    }

    /** The references of the queues to these blocks are given up already. */
    ghost predicate Detached(gone: multiset<Block>)
      reads `blockCount, `lifo, `blocks, `owners, `bags, `held, all`packets, all`ops, all`eit, blocks`refcount
    {
      && Pooling() && AllOk() && all == [dup] + outputs && NoDup(all) && |bags| == |all|
      && owners + gone == held + Sum(bags)
      && forall i :: 0 <= i < |all| ==> bags[i] == all[i].Holds()
    }

    /** output_Flush, up to the packet itself. */
    method SendFirst(o: Output, ghost orig: map<Block, Ts>, ghost np: seq<int>) returns (wire: seq<Wire>, ghost tss: seq<Ts>)
      requires Inv() && o in all && o.packets != []
      requires np == o.tables.newpids[..] && TableOk(np) && Untouched(o.packets[0].items, orig)
      modifies `lifo, `blockCount, `blocks, `owners, `wallclock, o`seqnum
      modifies (set b | b in o.packets[0].items)`refcount, (set b | b in o.packets[0].items)`ts, (set b | b in o.packets[0].items)`tmpPid
      ensures Detached(multiset(o.packets[0].items)) && wallclock < INT64_MAX
      ensures owners + multiset(o.packets[0].items) == old(owners)
      ensures |tss| == |o.packets[0].items| <= o.Room()
      ensures wire == Image(o.raw, o.udp, old(o.seqnum), old(wallclock), tss, o.Room())
      ensures Sent(tss, o.packets[0].items, orig, Remapping(o), np)
      ensures GivenBack(o.packets[0].items, orig, Remapping(o), np)
      ensures blocks <= old(blocks)
      ensures o.seqnum == if o.udp then old(o.seqnum) else (old(o.seqnum) + 1) % 0x1_0000
      ensures old(LeakFree()) ==> LeakFree()
    {
      hide Pooling, Output.Ok, Output.Holds, Sum, Image, Sent, GivenBack, Untouched, NoDup, TableOk, Output.Room, LeakFree;
      HeadFacts(o);
      var now: int;
      wire, now, tss := SendAndRelease(o, o.packets[0].items, orig, np);
      wallclock := now;
    }

    /** The end of output_Flush: the references are gone, now the packet goes. */
    method DropFirst(o: Output)
      requires o in all && o.packets != [] && Detached(multiset(o.packets[0].items))
      modifies `bags, o`packets, o`ops
      ensures Inv()
      ensures o.packets == old(o.packets)[1..] && o.ops == old(o.ops) + [PacketQueue.Flush]
    {
      hide Pooling, Output.Ok, Output.Holds, Sum;
      ghost var k :| 0 <= k < |all| && all[k] == o;
      assert forall i :: 0 <= i < |all| && i != k ==> all[i] != o;
      ghost var less := multiset(o.packets[0].items);
      o.Unlink();
      BagShrinks(k, less);
    }

    /** output_Flush.  The datagram shows every TS packet under its new PID; a block that is still
        wanted afterwards is renumbered once less often than it occurs in the packet, which leaves
        it as it was if it occurs once. */
    method Flush(o: Output, ghost orig: map<Block, Ts>, ghost np: seq<int>) returns (wire: seq<Wire>, ghost tss: seq<Ts>)
      requires Inv() && o in all && o.packets != []
      requires np == o.tables.newpids[..] && TableOk(np) && Untouched(o.packets[0].items, orig)
      modifies `lifo, `blockCount, `blocks, `owners, `bags, `wallclock, o`packets, o`seqnum, o`ops
      modifies (set b | b in o.packets[0].items)`refcount, (set b | b in o.packets[0].items)`ts, (set b | b in o.packets[0].items)`tmpPid
      ensures Inv() && wallclock < INT64_MAX
      ensures o.packets == old(o.packets)[1..] && o.ops == old(o.ops) + [PacketQueue.Flush]
      ensures owners + multiset(old(o.packets)[0].items) == old(owners)
      ensures |tss| == |old(o.packets)[0].items| <= o.Room()
      ensures wire == Image(o.raw, o.udp, old(o.seqnum), old(wallclock), tss, o.Room())
      ensures Sent(tss, old(o.packets)[0].items, orig, Remapping(o), np)
      ensures GivenBack(old(o.packets)[0].items, orig, Remapping(o), np)
      ensures blocks <= old(blocks)
      ensures o.seqnum == if o.udp then old(o.seqnum) else (old(o.seqnum) + 1) % 0x1_0000
      ensures old(LeakFree()) ==> LeakFree()
    {
      hide Inv, Detached, Image, Sent, GivenBack, Untouched, TableOk, Output.Room, LeakFree;
      wire, tss := SendFirst(o, orig, np);
      DropFirst(o);
    }

    lemma HeadFacts(o: Output)
      requires Inv() && o in all && o.packets != []
      ensures |o.packets[0].items| <= o.Room() && multiset(o.packets[0].items) <= owners
    {
      var k :| 0 <= k < |all| && all[k] == o;
      HeadOwned(k);
      o.HeadFits();
    }

    /** QueuesFaithful, in terms of the contents at that time. */
    ghost predicate QueuesRecalled(ts0: map<Block, Ts>)
      reads all`packets, all`ops, all`remap
    {
      forall i :: 0 <= i < |all| ==>
        && Recalled(all[i].packets, all[i].Log().queue, ts0)
        && (Remapping(all[i]) ==> OnceEach(all[i].packets))
    }

    lemma QueuesRecall(ts0: map<Block, Ts>)
      requires QueuesFaithful() && forall b :: b in blocks ==> b in ts0 && ts0[b] == b.ts
      ensures QueuesRecalled(ts0)
    {
      forall i | 0 <= i < |all| ensures Recalled(all[i].packets, all[i].Log().queue, ts0) {
        Recall(all[i].packets, all[i].Log().queue, blocks, ts0);
      }
    }

    /** The first packet of a recalled queue. */
    lemma FirstRecalled(o: Output, ts0: map<Block, Ts>)
      requires QueuesRecalled(ts0) && o in all && o.Ok() && o.packets != []
      ensures |o.packets[0].items| == |o.FirstItems()|
      ensures forall j :: 0 <= j < |o.packets[0].items| ==>
        o.packets[0].items[j] in ts0 && ts0[o.packets[0].items[j]] == o.FirstItems()[j].ts
      ensures Remapping(o) ==> NoDup(o.packets[0].items)
    {
      var k :| 0 <= k < |all| && all[k] == o;
      RecalledFirst(o.packets, o.Log().queue, ts0);
    }

    /** EitFaithful, in terms of the contents and the owners at that time. */
    ghost predicate EitRecalled(ts0: map<Block, Ts>, owners0: multiset<Block>)
      reads all`eit, all`eitOffset, all`carry
    {
      forall i :: 0 <= i < |all| ==>
        && (all[i].eit == null <==> all[i].carry.None?)
        && (all[i].eit != null ==>
              && all[i].eit in ts0 && owners0[all[i].eit] == 1
              && all[i].carry == Some(ts0[all[i].eit])
              && Sections.Carries(ts0[all[i].eit]) && all[i].eitOffset == Sections.Size(ts0[all[i].eit]))
    }

    lemma EitRecall(ts0: map<Block, Ts>)
      requires EitFaithful() && forall b :: b in blocks ==> b in ts0 && ts0[b] == b.ts
      ensures EitRecalled(ts0, owners)
    {
    }

    lemma EitFaithfulAgain(ts0: map<Block, Ts>, owners0: multiset<Block>, less: seq<Block>)
      requires Inv() && EitRecalled(ts0, owners0)
      requires owners + multiset(less) == owners0
      requires forall b :: b in owners && b in ts0 ==> b.ts == ts0[b]
      ensures EitFaithful()
    {
      hide Conserved, AllOk, Sections.Carries, Sections.Size;
      forall i | 0 <= i < |all| && all[i].eit != null
        ensures all[i].eit in blocks && owners[all[i].eit] == 1
      {
        EitOwned(i);
        OwnedKnown(all[i].eit);
        assert (owners + multiset(less))[all[i].eit] == 1;
      }
    }

    /** Queues that match by the contents in ts0 still match if owned blocks hold these contents. */
    lemma FaithfulAgain(ts0: map<Block, Ts>)
      requires Inv()
      requires QueuesRecalled(ts0)
      requires forall b :: b in owners && b in ts0 ==> b.ts == ts0[b]
      ensures QueuesFaithful()
    {
      hide Conserved, Output.Ok, Run;
      forall i | 0 <= i < |all| ensures SameContent(all[i].packets, all[i].Log().queue, blocks) {
        forall k, j | 0 <= k < |all[i].packets| && 0 <= j < |all[i].packets[k].items|
          ensures all[i].packets[k].items[j] in blocks
          ensures all[i].packets[k].items[j].ts == all[i].Log().queue[k].items[j].ts
        {
          QueuedOwned(i, k, j);
          OwnedKnown(all[i].packets[k].items[j]);
        }
      }
    }

    /** Once each: whoever still wants a block finds it as it was. */
    lemma GivenBackAsWas(blks: seq<Block>, orig: map<Block, Ts>, remapping: bool, np: seq<int>)
      requires TableOk(np) && GivenBack(blks, orig, remapping, np)
      requires remapping ==> NoDup(blks)
      ensures forall b :: b in blks && b in owners ==> b in orig && b.ts == orig[b]
    {
      forall b | b in blks && b in owners ensures b in orig && b.ts == orig[b] {
        if remapping { OnceCount(blks, b); }
      }
    }

    /** The datagram that output_Flush must send for the first packet of a faithful queue: every TS
        packet that was put, on its new PID. */
    ghost function Expected(o: Output, np: seq<int>): seq<Wire>
      reads `wallclock, o
      requires o.Ok() && o.packets != [] && TableOk(np)
    {
      Image(o.raw, o.udp, o.seqnum, wallclock, Announced(o.FirstItems(), Remapping(o), np), o.Room())
    }

    /** Flush, which leaves every queue but the first packet of o alone. */
    method FlushFirst(o: Output, ghost orig: map<Block, Ts>, ghost np: seq<int>, ghost ts0: map<Block, Ts>) returns (wire: seq<Wire>, ghost tss: seq<Ts>)
      requires Inv() && o in all && o.packets != []
      requires np == o.tables.newpids[..] && TableOk(np) && Untouched(o.packets[0].items, orig)
      modifies `lifo, `blockCount, `blocks, `owners, `bags, `wallclock, o`packets, o`seqnum, o`ops
      modifies (set b | b in o.packets[0].items)`refcount, (set b | b in o.packets[0].items)`ts, (set b | b in o.packets[0].items)`tmpPid
      ensures Inv() && wallclock < INT64_MAX
      ensures o.packets == old(o.packets)[1..] && o.ops == old(o.ops) + [PacketQueue.Flush]
      ensures owners + multiset(old(o.packets)[0].items) == old(owners)
      ensures |tss| == |old(o.packets)[0].items| <= o.Room()
      ensures wire == Image(o.raw, o.udp, old(o.seqnum), old(wallclock), tss, o.Room())
      ensures Sent(tss, old(o.packets)[0].items, orig, Remapping(o), np)
      ensures GivenBack(old(o.packets)[0].items, orig, Remapping(o), np)
      ensures blocks <= old(blocks)
      ensures o.seqnum == if o.udp then old(o.seqnum) else (old(o.seqnum) + 1) % 0x1_0000
      ensures old(LeakFree()) ==> LeakFree()
      ensures old(QueuesRecalled(ts0)) ==> QueuesRecalled(ts0)
    {
      hide Inv, Output.Ok, Image, Sent, GivenBack, Recalled, Run, TableOk, Untouched, LeakFree, Output.Room;
      wire, tss := Flush(o, orig, np);
      if old(QueuesRecalled(ts0)) {
        RunAppend(old(o.ops), PacketQueue.Flush, o.Room(), o.retention);
        RecalledFirst(old(o.packets), old(o.Log().queue), ts0);
        forall i | 0 <= i < |all| ensures Recalled(all[i].packets, all[i].Log().queue, ts0) {
          assert all[i] != o ==> all[i].packets == old(all[i].packets) && all[i].ops == old(all[i].ops);
        }
      }
    }

    method OutputFlush(o: Output) returns (wire: seq<Wire>)
      requires Inv() && o in all && o.packets != [] && TableOk(o.tables.newpids[..])
      modifies `lifo, `blockCount, `blocks, `owners, `bags, `wallclock, o`packets, o`seqnum, o`ops
      modifies (set b | b in o.packets[0].items)`refcount, (set b | b in o.packets[0].items)`ts, (set b | b in o.packets[0].items)`tmpPid
      ensures Inv() && wallclock < INT64_MAX
      ensures o.packets == old(o.packets)[1..] && o.ops == old(o.ops) + [PacketQueue.Flush]
      ensures owners + multiset(old(o.packets)[0].items) == old(owners)
      ensures o.seqnum == if o.udp then old(o.seqnum) else (old(o.seqnum) + 1) % 0x1_0000
      ensures old(LeakFree()) ==> LeakFree()
      ensures blocks <= old(blocks) && held == old(held) && owners <= old(owners)
      ensures old(Faithful()) ==> Faithful() && wire == old(Expected(o, o.tables.newpids[..]))
      ensures old(Faithful() && o.Ok()) ==> Shown(wire) == old(Announced(o.FirstItems(), Remapping(o), o.tables.newpids[..]))
    {
      hide Shown, Inv, Output.Ok, Image, Sent, GivenBack, Run, NoDup, Renumber, TableOk, Announced, Untouched, Output.Room,
        LeakFree, QueuesFaithful, QueuesRecalled, EitFaithful, EitRecalled, OnceEach;
      InvOk(o);
      ghost var np := o.tables.newpids[..];
      ghost var blks, items, remapping := o.packets[0].items, o.FirstItems(), Remapping(o);
      Snapshot(blks);
      ghost var orig: map<Block, Ts> := map b: Block | b in blks :: b.ts;
      ghost var ts0: map<Block, Ts> := map b: Block | b in blocks :: b.ts;
      ghost var faithful, owners0, seqnum, clock := Faithful(), owners, o.seqnum, wallclock;
      if faithful {
        QueuesRecall(ts0);
        EitRecall(ts0);
        FirstRecalled(o, ts0);
      }
      ghost var tss;
      wire, tss := FlushFirst(o, orig, np, ts0);
      if faithful {
        FlushedAsPut(tss, blks, items, orig, remapping, np, ts0, owners0);
        ImageShows(o.raw, o.udp, seqnum, clock, tss, o.Room());
      }
    }

    lemma FlushedAsPut(tss: seq<Ts>, blks: seq<Block>, items: seq<Item>, orig: map<Block, Ts>, remapping: bool, np: seq<int>,
                       ts0: map<Block, Ts>, owners0: multiset<Block>)
      requires Inv() && QueuesRecalled(ts0) && EitRecalled(ts0, owners0) && owners + multiset(blks) == owners0
      requires TableOk(np) && GivenBack(blks, orig, remapping, np) && Sent(tss, blks, orig, remapping, np) && (remapping ==> NoDup(blks))
      requires |blks| == |items| && forall j :: 0 <= j < |blks| ==> blks[j] in orig && orig[blks[j]] == items[j].ts
      requires forall b :: b in ts0 && b in blks ==> b in orig && orig[b] == ts0[b]
      requires forall b :: b in ts0 && b !in blks ==> b.ts == ts0[b]
      ensures Faithful() && tss == Announced(items, remapping, np)
    {
      hide Inv, QueuesRecalled, EitRecalled, GivenBack, Sent, QueuesFaithful, EitFaithful, NoDup;
      GivenBackAsWas(blks, orig, remapping, np);
      FaithfulAgain(ts0);
      EitFaithfulAgain(ts0, owners0, blks);
      SentAsAnnounced(tss, blks, orig, items, remapping, np);
    }

    // ----- the scheduler -----

    ghost predicate TablesOk()
      reads set o | o in all :: o.tables.newpids
    {
      forall i :: 0 <= i < |all| ==> TableOk(all[i].tables.newpids[..])
    }

    lemma InvOk(o: Output)
      requires Inv() && o in all
      ensures o.Ok()
    {
    }

    lemma HeadKnown(o: Output)
      requires Inv() && o in all && o.packets != []
      ensures forall b :: b in o.packets[0].items ==> b in blocks
    {
      var k :| 0 <= k < |all| && all[k] == o;
      HeadOwned(k);
      assert forall b :: b in o.packets[0].items ==> b in multiset(o.packets[0].items);
    }

    /** The inner loop of outputs_Send: send what is due. */
    method Drain(o: Output)
      requires Inv() && o in all && TablesOk()
      modifies `lifo, `blockCount, `blocks, `owners, `bags, `wallclock, o`packets, o`seqnum, o`ops, o`wires
      modifies blocks`refcount, blocks`ts, blocks`tmpPid
      ensures Inv() && TablesOk() && blocks <= old(blocks) && owners <= old(owners)
      ensures o.packets != [] ==> wallclock < o.Due()
      ensures |o.packets| <= |old(o.packets)| && o.packets == old(o.packets)[|old(o.packets)| - |o.packets|..]
      ensures |o.packets| == |old(o.packets)| ==> wallclock == old(wallclock)
      ensures old(wallclock) < INT64_MAX ==> wallclock < INT64_MAX
      ensures Puts(o.ops) == old(Puts(o.ops)) && held == old(held) && SentNow(o, old(o.wires))
      ensures old(LeakFree()) ==> LeakFree()
      ensures old(Faithful()) ==> Faithful()
      ensures old(Faithful() && o.Spelled()) ==> o.Spelled()
    {
      hide Inv, Faithful, LeakFree, Puts, TableOk, TablesOk, Output.Spelled;
      while o.packets != [] && o.packets[0].dts + o.latency <= wallclock
        invariant Inv() && TablesOk() && blocks <= old(blocks) && owners <= old(owners)
        invariant |o.packets| <= |old(o.packets)| && o.packets == old(o.packets)[|old(o.packets)| - |o.packets|..]
        invariant |o.packets| == |old(o.packets)| ==> wallclock == old(wallclock)
        invariant old(wallclock) < INT64_MAX ==> wallclock < INT64_MAX
        invariant Puts(o.ops) == old(Puts(o.ops)) && held == old(held) && SentNow(o, old(o.wires))
        invariant old(LeakFree()) ==> LeakFree()
        invariant old(Faithful()) ==> Faithful()
        invariant old(Faithful() && o.Spelled()) ==> o.Spelled()
        decreases |o.packets|
      {
        HeadKnown(o);
        FlushTold(o);
      }
    }

    /** One datagram is sent, and written down. */
    method FlushTold(o: Output)
      requires Inv() && o in all && TablesOk() && o.packets != []
      modifies `lifo, `blockCount, `blocks, `owners, `bags, `wallclock, o`packets, o`seqnum, o`ops, o`wires
      modifies (set b | b in o.packets[0].items)`refcount, (set b | b in o.packets[0].items)`ts, (set b | b in o.packets[0].items)`tmpPid
      ensures |o.wires| > 0 && o.wires == old(o.wires) + [Dispatch(o.wires[|o.wires| - 1].wire, old(wallclock), Remapping(o), o.tables.newpids[..])]
      ensures old(Faithful() && o.Ok() && TableOk(o.tables.newpids[..])) ==>
        o.wires[|o.wires| - 1].wire == old(Expected(o, o.tables.newpids[..]))
      ensures Inv() && TablesOk() && wallclock < INT64_MAX
      ensures o.packets == old(o.packets)[1..] && Puts(o.ops) == old(Puts(o.ops))
      ensures blocks <= old(blocks) && held == old(held) && owners <= old(owners)
      ensures old(LeakFree()) ==> LeakFree()
      ensures old(Faithful()) ==> Faithful()
      ensures old(Faithful() && o.Spelled() && o.Due() <= wallclock) ==> o.Spelled()
    {
      hide Inv, Faithful, LeakFree, Puts, TableOk, TablesOk, Output.Ok, Spelling, Image, Announced, Run;
      InvOk(o);
      TablesKnown(o);
      ghost var ops, seqnum, clock, np := o.ops, o.seqnum, wallclock, o.tables.newpids[..];
      ghost var sent, first := FirstLogged(o);
      ghost var spelled := Faithful() && o.Spelled() && o.Due() <= wallclock;
      var wire := OutputFlush(o);
      PutsFlush(ops);
      ghost var d := Dispatch(wire, clock, Remapping(o), np);
      if spelled {
        LogFlushed(ops, o.Room(), o.retention);
        SpellingNext(o.wires, sent, o.raw, o.udp, o.seqnum0, seqnum, o.Room(), o.latency, d, first);
      }
      NoteWire(o, d);
    }

    lemma TablesKnown(o: Output)
      requires TablesOk() && o in all
      ensures TableOk(o.tables.newpids[..])
    {
    }

    lemma FirstLogged(o: Output) returns (sent: seq<Packet<Item>>, first: Packet<Item>)
      requires o.Ok() && o.packets != []
      ensures o.Log().queue != [] && sent == o.Log().sent && first == o.Log().queue[0] && first.items == o.FirstItems()
      ensures first.dts == o.packets[0].dts
    {
      sent, first := o.Log().sent, o.Log().queue[0];
    }

    ghost method NoteWire(o: Output, d: Dispatch)
      requires Inv() && TablesOk() && o in all
      modifies o`wires
      ensures o.wires == old(o.wires) + [d]
      ensures Inv() && TablesOk()
      ensures old(Faithful()) ==> Faithful()
    {
      hide Pooling, Linked, AllOk, QueuesFaithful, EitFaithful;
      o.wires := o.wires + [d];
    }

    /** t is the earliest due time of the first n outputs, or INT64_MAX if these have nothing queued. */
    ghost predicate Earliest(t: int, n: nat)
      requires n <= |all|
      reads all
    {
      && t <= INT64_MAX
      && (forall i :: 0 <= i < n && all[i].valid && all[i].packets != [] ==> t <= all[i].Due())
      && (t < INT64_MAX ==> exists i :: 0 <= i < n && all[i].valid && all[i].packets != [] && t == all[i].Due())
    }

    /** No queue is longer than `lens` says. */
    ghost predicate NotLonger(lens: seq<int>)
      reads all
    {
      |lens| == |all| && forall i :: 0 <= i < |all| ==> |all[i].packets| <= lens[i]
    }

    ghost predicate Shorter(lens: seq<int>)
      reads all
    {
      |lens| == |all| && exists i :: 0 <= i < |all| && |all[i].packets| < lens[i]
    }

    /** n outputs are visited in a round that began at time `start` with queues of these lengths: as
        long as nothing was sent, it is still that time and nothing visited is due. */
    ghost predicate Visited(n: nat, lens: seq<int>, start: int)
      requires n <= |all|
      reads `nextSend, `wallclock, all
    {
      && NotLonger(lens) && Earliest(nextSend, n) && wallclock < INT64_MAX
      && (!Shorter(lens) ==> wallclock == start < nextSend)
    }

    lemma VisitedNext(n: nat, lens: seq<int>, start: int, clock0: int, next0: int, len0: nat)
      requires n < |all| && all[n].Ok()
      requires NotLonger(lens) && Earliest(next0, n) && wallclock < INT64_MAX
      requires |all[n].packets| <= len0 <= lens[n]
      requires |all[n].packets| == len0 ==> wallclock == clock0
      requires (!exists i :: 0 <= i < |all| && (if i == n then len0 else |all[i].packets|) < lens[i]) ==> clock0 == start < next0
      requires all[n].valid && all[n].packets != [] ==> wallclock < all[n].Due()
      requires nextSend == if all[n].valid && all[n].packets != [] && all[n].Due() < next0 then all[n].Due() else next0
      ensures Visited(n + 1, lens, start)
    {
      hide Output.Ok;
      if !Shorter(lens) {
        assert |all[n].packets| == len0;
        assert forall i :: 0 <= i < |all| ==> !((if i == n then len0 else |all[i].packets|) < lens[i]);
      }
      if nextSend < INT64_MAX && nextSend == next0 {
        var i :| 0 <= i < n && all[i].valid && all[i].packets != [] && nextSend == all[i].Due();
        assert 0 <= i < n + 1;
      }
    }

    /** A visit of outputs_Send: send what is due, then see when the output is due next. */
    method Visit(o: Output, ghost n: nat, ghost lens: seq<int>, ghost start: int, ghost puts: seq<seq<Item>>, ghost seen: seq<seq<Dispatch>>)
      requires Inv() && TablesOk() && n < |all| && o == all[n]
      requires Visited(n, lens, start) && PutsAre(puts, seen)
      modifies `lifo, `blockCount, `blocks, `owners, `bags, `wallclock, `nextSend, o`packets, o`seqnum, o`ops, o`wires
      modifies blocks`refcount, blocks`ts, blocks`tmpPid
      ensures Inv() && TablesOk() && blocks <= old(blocks) && owners <= old(owners)
      ensures Visited(n + 1, lens, start) && PutsAre(puts, seen)
      ensures held == old(held)
      ensures old(LeakFree()) ==> LeakFree()
      ensures old(Faithful()) ==> Faithful()
      ensures old(Faithful() && AllSpelled()) ==> AllSpelled()
    {
      hide Inv, TablesOk, LeakFree, Faithful, Visited, Earliest, NotLonger, Output.Ok, PutsAre, VisitedBefore, AllSpelled;
      VisitedFacts(n, lens, start);
      ghost var qs := TakeQueues(n, lens, start);
      ghost var clock0, next0, len0 := wallclock, nextSend, |o.packets|;
      LookAt(o, n, qs, puts, seen);
      OthersStay(n, qs, lens, next0, clock0, start);
      InvOk(o);
      VisitedNext(n, lens, start, clock0, next0, len0);
    }

    method LookAt(o: Output, ghost n: nat, ghost qs: seq<seq<Packet<Block>>>, ghost puts: seq<seq<Item>>, ghost seen: seq<seq<Dispatch>>)
      requires Inv() && n < |all| && o == all[n] && TablesOk() && PutsAre(puts, seen)
      requires |qs| == |all| && forall i :: 0 <= i < |all| ==> qs[i] == all[i].packets
      modifies `lifo, `blockCount, `blocks, `owners, `bags, `wallclock, `nextSend, o`packets, o`seqnum, o`ops, o`wires
      modifies blocks`refcount, blocks`ts, blocks`tmpPid
      ensures Inv() && TablesOk() && blocks <= old(blocks) && owners <= old(owners)
      ensures |o.packets| <= |qs[n]|
      ensures |o.packets| == |qs[n]| ==> wallclock == old(wallclock)
      ensures old(wallclock) < INT64_MAX ==> wallclock < INT64_MAX
      ensures held == old(held)
      ensures old(LeakFree()) ==> LeakFree()
      ensures old(Faithful()) ==> Faithful()
      ensures old(Faithful() && AllSpelled()) ==> AllSpelled()
      ensures forall i :: 0 <= i < |all| && i != n ==> all[i].packets == qs[i]
      ensures PutsAre(puts, seen)
      ensures o.valid && o.packets != [] ==> wallclock < o.Due()
      ensures nextSend == if o.valid && o.packets != [] && o.Due() < old(nextSend) then o.Due() else old(nextSend)
    {
      hide Inv, TablesOk, LeakFree, Faithful, PutsAre, AllSpelled;
      if o.valid {
        DrainAt(o, n, qs, puts, seen);
        if o.packets != [] && o.packets[0].dts + o.latency < nextSend {
          nextSend := o.packets[0].dts + o.latency;
        }
      }
    }

    /** Value q of the queues; the others have not changed, so neither has what follows from them. */
    lemma OthersStay(n: nat, qs: seq<seq<Packet<Block>>>, lens: seq<int>, next0: int, clock0: int, start: int)
      requires n < |all| == |qs| == |lens|
      requires forall i :: 0 <= i < |all| && i != n ==> all[i].packets == qs[i]
      requires |all[n].packets| <= |qs[n]|
      requires VisitedBefore(n, qs, lens, next0, clock0, start)
      ensures NotLonger(lens) && Earliest(next0, n)
      ensures (!exists i :: 0 <= i < |all| && (if i == n then |qs[n]| else |all[i].packets|) < lens[i]) ==> clock0 == start < next0
    {
      if next0 < INT64_MAX {
        var i :| 0 <= i < n && all[i].valid && qs[i] != [] && next0 == qs[i][0].dts + all[i].latency;
        assert all[i].packets == qs[i];
      }
      if exists i :: 0 <= i < |all| && |qs[i]| < lens[i] {
        var i :| 0 <= i < |all| && |qs[i]| < lens[i];
        assert (if i == n then |qs[n]| else |all[i].packets|) < lens[i];
      }
    }

    /** Visited, in terms of the queues at that time. */
    ghost predicate VisitedBefore(n: nat, qs: seq<seq<Packet<Block>>>, lens: seq<int>, next0: int, clock0: int, start: int)
      requires n < |all| == |qs| == |lens|
      reads all`valid
    {
      && (forall i :: 0 <= i < |all| ==> |qs[i]| <= lens[i])
      && next0 <= INT64_MAX
      && (forall i :: 0 <= i < n && all[i].valid && qs[i] != [] ==> next0 <= qs[i][0].dts + all[i].latency)
      && (next0 < INT64_MAX ==> exists i :: 0 <= i < n && all[i].valid && qs[i] != [] && next0 == qs[i][0].dts + all[i].latency)
      && ((!exists i :: 0 <= i < |all| && |qs[i]| < lens[i]) ==> clock0 == start < next0)
    }

    lemma TakeQueues(n: nat, lens: seq<int>, start: int) returns (qs: seq<seq<Packet<Block>>>)
      requires n < |all| && Visited(n, lens, start)
      ensures |qs| == |all| == |lens| && forall i :: 0 <= i < |all| ==> qs[i] == all[i].packets
      ensures VisitedBefore(n, qs, lens, nextSend, wallclock, start)
    {
      qs := Queues(all);
      if nextSend < INT64_MAX {
        var i :| 0 <= i < n && all[i].valid && all[i].packets != [] && nextSend == all[i].Due();
        assert qs[i] != [] && nextSend == qs[i][0].dts + all[i].latency;
      }
      if Shorter(lens) {
        var i :| 0 <= i < |all| && |all[i].packets| < lens[i];
        assert |qs[i]| < lens[i];
      }
    }

    /** Drain, and what it does not touch. */
    method DrainAt(o: Output, ghost n: nat, ghost qs: seq<seq<Packet<Block>>>, ghost puts: seq<seq<Item>>, ghost seen: seq<seq<Dispatch>>)
      requires Inv() && n < |all| && o == all[n] && TablesOk() && PutsAre(puts, seen)
      requires |qs| == |all| && forall i :: 0 <= i < |all| ==> qs[i] == all[i].packets
      modifies `lifo, `blockCount, `blocks, `owners, `bags, `wallclock, o`packets, o`seqnum, o`ops, o`wires
      modifies blocks`refcount, blocks`ts, blocks`tmpPid
      ensures Inv() && TablesOk() && blocks <= old(blocks) && owners <= old(owners)
      ensures o.packets != [] ==> wallclock < o.Due()
      ensures |o.packets| <= |qs[n]|
      ensures |o.packets| == |qs[n]| ==> wallclock == old(wallclock)
      ensures old(wallclock) < INT64_MAX ==> wallclock < INT64_MAX
      ensures held == old(held)
      ensures old(LeakFree()) ==> LeakFree()
      ensures old(Faithful()) ==> Faithful()
      ensures old(Faithful() && AllSpelled()) ==> AllSpelled()
      ensures forall i :: 0 <= i < |all| && i != n ==> all[i].packets == qs[i]
      ensures PutsAre(puts, seen)
    {
      hide Inv, AllSpelled, TablesOk, LeakFree, Faithful, Puts;
      AloneAt(n);
      DrainSpelled(o, n);
    }

    lemma AloneAt(n: nat)
      requires Inv() && n < |all|
      ensures forall i :: 0 <= i < |all| && i != n ==> all[i] != all[n]
    {
    }

    method DrainSpelled(o: Output, ghost n: nat)
      requires Inv() && n < |all| && o == all[n] && TablesOk()
      requires forall i :: 0 <= i < |all| && i != n ==> all[i] != o
      modifies `lifo, `blockCount, `blocks, `owners, `bags, `wallclock, o`packets, o`seqnum, o`ops, o`wires
      modifies blocks`refcount, blocks`ts, blocks`tmpPid
      ensures Inv() && TablesOk() && blocks <= old(blocks) && owners <= old(owners)
      ensures o.packets != [] ==> wallclock < o.Due()
      ensures |o.packets| <= |old(o.packets)|
      ensures |o.packets| == |old(o.packets)| ==> wallclock == old(wallclock)
      ensures old(wallclock) < INT64_MAX ==> wallclock < INT64_MAX
      ensures Puts(o.ops) == old(Puts(o.ops)) && held == old(held) && SentNow(o, old(o.wires))
      ensures old(LeakFree()) ==> LeakFree()
      ensures old(Faithful()) ==> Faithful()
      ensures old(Faithful() && AllSpelled()) ==> AllSpelled()
    {
      hide Inv, TablesOk, LeakFree, Faithful, Puts, Output.Spelled;
      Drain(o);
    }

    lemma VisitedFacts(n: nat, lens: seq<int>, start: int)
      requires n <= |all| && Visited(n, lens, start)
      ensures NotLonger(lens) && Earliest(nextSend, n) && wallclock < INT64_MAX
      ensures !Shorter(lens) ==> wallclock == start < nextSend
    {
    }

    /** What output o has sent since its history was `before` went out under its present PID table. */
    ghost predicate SentNow(o: Output, before: seq<Dispatch>)
      reads o`wires, o`remap, o.tables.newpids
    {
      && before <= o.wires
      && forall n :: |before| <= n < |o.wires| ==> o.wires[n].newpids == o.tables.newpids[..] && o.wires[n].remapping == Remapping(o)
    }

    /** `puts` is what has been put into each output, and `seen` what each had sent at the start. */
    ghost predicate PutsAre(puts: seq<seq<Item>>, seen: seq<seq<Dispatch>>)
      reads all`ops, all`wires, all`remap, set o | o in all :: o.tables.newpids
    {
      && |puts| == |all| == |seen|
      && forall i :: 0 <= i < |all| ==> Puts(all[i].ops) == puts[i] && SentNow(all[i], seen[i])
    }

    /** One round of outputs_Send.  The duplication output comes first; the first visit finds INT64_MAX,
        so that comparing does what the plain assignment in the source does. */
    method Sweep(ghost lens: seq<int>, ghost start: int, ghost puts: seq<seq<Item>>, ghost seen: seq<seq<Dispatch>>)
      requires Inv() && TablesOk() && wallclock < INT64_MAX
      requires NotLonger(lens) && start == wallclock && PutsAre(puts, seen)
      modifies `lifo, `blockCount, `blocks, `owners, `bags, `wallclock, `nextSend
      modifies all`packets, all`seqnum, all`ops, all`wires, blocks`refcount, blocks`ts, blocks`tmpPid
      ensures Inv() && TablesOk() && blocks <= old(blocks) && owners <= old(owners)
      ensures Visited(|all|, lens, start) && PutsAre(puts, seen)
      ensures held == old(held)
      ensures old(LeakFree()) ==> LeakFree()
      ensures old(Faithful()) ==> Faithful()
      ensures old(Faithful() && AllSpelled()) ==> AllSpelled()
    {
      hide Inv, Visited, TablesOk, LeakFree, Faithful, PutsAre, NotLonger, AllSpelled;
      Order();
      nextSend := INT64_MAX;
      StartRound(lens, start);
      assert dup == all[0] && dup in all;
      Visit(dup, 0, lens, start, puts, seen);
      var i := 0;
      while i < |outputs|
        invariant 0 <= i <= |outputs| && Inv() && TablesOk() && blocks <= old(blocks) && owners <= old(owners)
        invariant Visited(i + 1, lens, start) && PutsAre(puts, seen)
        invariant held == old(held)
        invariant old(LeakFree()) ==> LeakFree()
        invariant old(Faithful()) ==> Faithful()
        invariant old(Faithful() && AllSpelled()) ==> AllSpelled()
      {
        assert outputs[i] == all[i + 1] && outputs[i] in all;
        Visit(outputs[i], i + 1, lens, start, puts, seen);
        i := i + 1;
      }
    }

    lemma StartRound(lens: seq<int>, start: int)
      requires NotLonger(lens) && wallclock == start < INT64_MAX && nextSend == INT64_MAX
      ensures Visited(0, lens, start)
    {
    }

    lemma RoundsEnd(lens: seq<int>)
      requires NotLonger(lens) && Shorter(lens)
      ensures 0 <= Total(Lengths(all)) < Total(lens)
    {
      TotalLess(Lengths(all), lens);
    }

    /** No packet of a valid output is past its time, if timestamps were put in order. */
    ghost predicate NothingOverdue()
      reads `wallclock, all
    {
      forall i, k :: 0 <= i < |all| && all[i].valid && Ascending(Puts(all[i].ops)) && 0 <= k < |all[i].packets| ==>
        wallclock < all[i].packets[k].dts + all[i].latency
    }

    /** The clock reading and the loop of outputs_Send.  It ends whatever the clock says: another round comes only after
        something was sent. */
    method Rounds(ghost puts: seq<seq<Item>>, ghost seen: seq<seq<Dispatch>>)
      requires Inv() && TablesOk() && puts == AllPuts(all) && seen == AllWires(all)
      modifies `lifo, `blockCount, `blocks, `owners, `bags, `wallclock, `nextSend
      modifies all`packets, all`seqnum, all`ops, all`wires, blocks`refcount, blocks`ts, blocks`tmpPid
      ensures Inv() && TablesOk() && blocks <= old(blocks) && owners <= old(owners) && held == old(held)
      ensures Earliest(nextSend, |all|) && wallclock < nextSend && NothingOverdue()
      ensures AllPuts(all) == puts && AllSentNow(seen)
      ensures old(LeakFree()) ==> LeakFree()
      ensures old(Faithful()) ==> Faithful()
      ensures old(Faithful() && AllSpelled()) ==> AllSpelled()
    {
      hide Inv, Visited, TablesOk, LeakFree, Faithful, PutsAre, Earliest, NotLonger, Shorter, NothingOverdue, AllSpelled;
      PutsTaken(puts, seen);
      wallclock := MDate();
      var again := true;
      while again
        invariant Inv() && TablesOk() && blocks <= old(blocks) && owners <= old(owners) && held == old(held)
        invariant PutsAre(puts, seen) && wallclock < INT64_MAX
        invariant !again ==> Earliest(nextSend, |all|) && wallclock < nextSend
        invariant old(LeakFree()) ==> LeakFree()
        invariant old(Faithful()) ==> Faithful()
        invariant old(Faithful() && AllSpelled()) ==> AllSpelled()
        decreases Total(Lengths(all)) + if again then 1 else 0
      {
        ghost var lens, start := Lengths(all), wallclock;
        LensTaken(lens);
        Sweep(lens, start, puts, seen);
        VisitedFacts(|all|, lens, start);
        again := nextSend <= wallclock;
        if again {
          RoundsEnd(lens);
        } else {
          RoundsShrink(lens);
        }
      }
      NothingDue(puts, seen);
    }

    /** outputs_Send, the callback of the timer, which has gone off and is not periodic.  Afterwards nothing is due in any output, and
        the timer is set for the first packet that will be. */
    method OutputsSend()
      requires Inv() && TablesOk()
      modifies `lifo, `blockCount, `blocks, `owners, `bags, `wallclock, `nextSend, `timer
      modifies all`packets, all`seqnum, all`ops, all`wires, blocks`refcount, blocks`ts, blocks`tmpPid
      ensures Inv() && TablesOk() && blocks <= old(blocks) && owners <= old(owners) && held == old(held)
      ensures Earliest(nextSend, |all|) && wallclock < nextSend && Armed() && NothingOverdue()
      ensures timer == if nextSend < INT64_MAX then Some(nextSend) else None
      ensures AllPuts(all) == old(AllPuts(all)) && AllSentNow(old(AllWires(all)))
      ensures old(LeakFree()) ==> LeakFree()
      ensures old(Faithful()) ==> Faithful()
      ensures old(Faithful() && AllSpelled()) ==> AllSpelled()
    {
      hide Inv, TablesOk, LeakFree, Faithful, Earliest, Armed, NothingOverdue, AllSpelled, AllSentNow;
      Rounds(AllPuts(all), AllWires(all));
      timer := if nextSend < INT64_MAX then Some(nextSend) else None;
      ArmedNow();
    }

    lemma LensTaken(lens: seq<int>)
      requires lens == Lengths(all)
      ensures NotLonger(lens)
    {
    }

    lemma RoundsShrink(lens: seq<int>)
      requires NotLonger(lens)
      ensures 0 <= Total(Lengths(all)) <= Total(lens)
    {
      TotalAtMost(Lengths(all), lens);
    }

    ghost predicate AllSentNow(seen: seq<seq<Dispatch>>)
      reads all`wires, all`remap, set o | o in all :: o.tables.newpids
    {
      |seen| == |all| && forall i :: 0 <= i < |all| ==> SentNow(all[i], seen[i])
    }

    lemma PutsTaken(puts: seq<seq<Item>>, seen: seq<seq<Dispatch>>)
      requires puts == AllPuts(all) && seen == AllWires(all)
      ensures PutsAre(puts, seen)
    {
    }

    lemma NothingDue(puts: seq<seq<Item>>, seen: seq<seq<Dispatch>>)
      requires Inv() && PutsAre(puts, seen) && Earliest(nextSend, |all|) && wallclock < nextSend
      ensures AllPuts(all) == puts && AllSentNow(seen) && NothingOverdue()
    {
      forall i, k | 0 <= i < |all| && all[i].valid && Ascending(Puts(all[i].ops)) && 0 <= k < |all[i].packets|
        ensures wallclock < all[i].packets[k].dts + all[i].latency
      {
        InOrder(all[i], k);
      }
    }

    lemma InOrder(o: Output, k: nat)
      requires o.Ok() && Ascending(Puts(o.ops)) && k < |o.packets|
      ensures o.packets[0].dts <= o.packets[k].dts
    {
      QueueSorted(o.ops, o.Room(), o.retention);
    }

    lemma ArmedNow()
      requires Earliest(nextSend, |all|) && (nextSend < INT64_MAX ==> timer == Some(nextSend))
      ensures Armed()
    {
    }

    lemma Order()
      requires Inv()
      ensures all == [dup] + outputs
    {
    }

    // ----- blocks in the hands of a caller -----

    /** A block whose only owner is the caller is in no queue and no EIT buffer. */
    lemma SoleNowhere(b: Block)
      requires Linked() && owners[b] == 1 && held[b] >= 1
      ensures forall i, k, j :: 0 <= i < |all| && 0 <= k < |all[i].packets| && 0 <= j < |all[i].packets[k].items| ==>
        all[i].packets[k].items[j] != b
      ensures forall i :: 0 <= i < |all| ==> all[i].eit != b
    {
      forall i | 0 <= i < |all| ensures all[i].Holds()[b] == 0 {
        SumContains(bags, i);
        assert (held + Sum(bags))[b] == held[b] + Sum(bags)[b];
      }
      forall i, k, j | 0 <= i < |all| && 0 <= k < |all[i].packets| && 0 <= j < |all[i].packets[k].items|
        ensures all[i].packets[k].items[j] != b
      {
        FlatHas(all[i].packets, k, j);
      }
    }

    /** A new block does no harm. */
    lemma GrownFaithful(ts0: map<Block, Ts>, owners0: multiset<Block>, b: Block)
      requires Inv() && QueuesRecalled(ts0) && EitRecalled(ts0, owners0)
      requires owners == owners0 + multiset{b} && owners0[b] == 0
      requires forall c :: c in ts0 ==> c in blocks && c.ts == ts0[c]
      ensures Faithful()
    {
      hide Inv, QueuesRecalled, Sections.Carries, Sections.Size, QueuesFaithful;
      FaithfulAgain(ts0);
      forall i | 0 <= i < |all| && all[i].eit != null ensures owners[all[i].eit] == 1 {
        assert all[i].eit != b;
      }
    }

    lemma GrownLinked(b: Block, owners0: multiset<Block>, held0: multiset<Block>)
      requires Bagged() && owners0 == held0 + Sum(bags) && owners == owners0 + multiset{b} && held == held0 + multiset{b}
      ensures Linked()
    {
      hide Sum, Output.Holds;
      assert held0 + Sum(bags) + multiset{b} == (held0 + multiset{b}) + Sum(bags);
    }

    ghost predicate Bagged()
      reads `bags, all`packets, all`eit
    {
      && all == [dup] + outputs && NoDup(all) && |bags| == |all|
      && forall i :: 0 <= i < |all| ==> bags[i] == all[i].Holds()
    }

    lemma LinkedBagged()
      requires Linked()
      ensures Bagged() && owners == held + Sum(bags)
    {
    }

    /** block_New, and the timestamp that the callers set next. */
    method NewBlock(dts: int) returns (b: Block)
      requires Inv() && Faithful()
      modifies `lifo, `blockCount, `blocks, `owners, `held, lifo`refcount, lifo`dts
      ensures Inv() && Faithful()
      ensures b in blocks && b !in lifo && b.dts == dts
      ensures owners[b] == 1 && owners == old(owners) + multiset{b} && held == old(held) + multiset{b}
      ensures old(LeakFree()) ==> LeakFree()
      ensures blocks == old(blocks) + {b} && (b in old(lifo) || fresh(b))
    {
      hide Pooling, Linked, Bagged, AllOk, Sum, QueuesFaithful, EitFaithful, QueuesRecalled, EitRecalled;
      LinkedBagged();
      ghost var ts0: map<Block, Ts> := map c: Block | c in blocks :: c.ts;
      QueuesRecall(ts0);
      EitRecall(ts0);
      ghost var owners0, held0 := owners, held;
      b := BlockNew();
      GrownLinked(b, owners0, held0);
      GrownFaithful(ts0, owners0, b);
      b.dts := dts;
    }

    /** Filling a block that only the caller has. */
    method Fill(b: Block, ts: Ts)
      requires Inv() && Faithful() && owners[b] == 1 && held[b] >= 1
      modifies b`ts
      ensures Inv() && Faithful() && b.ts == ts
    {
      hide Pooling, AllOk, Sum, SameShape, Run;
      SoleNowhere(b);
      b.ts := ts;
    }

    /** Handing a block of the caller's to output k's EIT buffer. */
    ghost method HandOver(k: nat, b: Block)
      requires all == [dup] + outputs && NoDup(all) && |bags| == |all| && k < |all|
      requires forall i :: 0 <= i < |all| && i != k ==> bags[i] == all[i].Holds()
      requires all[k].Holds() == bags[k] + multiset{b}
      requires owners == held + Sum(bags) && held[b] >= 1
      modifies `bags, `held
      ensures Linked() && held == old(held) - multiset{b}
    {
      hide Sum, Output.Holds;
      var bags' := bags[k := all[k].Holds()];
      SumGrows(bags, bags', k, multiset{b});
      assert held + Sum(bags) == (held - multiset{b}) + (Sum(bags) + multiset{b});
      bags, held := bags', held - multiset{b};
    }

    /** And taking it back. */
    ghost method HandBack(k: nat, b: Block)
      requires all == [dup] + outputs && NoDup(all) && |bags| == |all| && k < |all|
      requires forall i :: 0 <= i < |all| && i != k ==> bags[i] == all[i].Holds()
      requires all[k].Holds() + multiset{b} == bags[k]
      requires owners == held + Sum(bags)
      modifies `bags, `held
      ensures Linked() && held == old(held) + multiset{b}
    {
      hide Sum, Output.Holds;
      var bags' := bags[k := all[k].Holds()];
      SumGrows(bags', bags, k, multiset{b});
      assert held + (Sum(bags') + multiset{b}) == (held + multiset{b}) + Sum(bags');
      bags, held := bags', held + multiset{b};
    }

    lemma EitKnown(o: Output)
      requires EitFaithful() && o in all && o.eit != null
      ensures o.carry == Some(o.eit.ts) && owners[o.eit] == 1
      ensures Sections.Carries(o.eit.ts) && o.eitOffset == Sections.Size(o.eit.ts)
    {
      var k :| 0 <= k < |all| && all[k] == o;
      assert EitOk(all[k]);
    }

    lemma NoEit(o: Output)
      requires o.eit == null && o.carry == None
      ensures EitOk(o)
    {
    }

    lemma NowEit(o: Output, b: Block)
      requires o.eit == b && o.carry == Some(b.ts) && b in blocks && owners[b] == 1
      requires Sections.Carries(b.ts) && o.eitOffset == Sections.Size(b.ts)
      ensures EitOk(o)
    {
    }

    lemma OnlyAt(k: nat)
      requires NoDup(all) && k < |all|
      ensures forall i :: 0 <= i < |all| && i != k ==> all[i] != all[k]
    {
    }

    lemma LinkedFacts()
      requires Linked()
      ensures all == [dup] + outputs && NoDup(all) && |bags| == |all|
      ensures owners == held + Sum(bags)
      ensures forall i :: 0 <= i < |all| ==> bags[i] == all[i].Holds()
    {
    }

    method ClearEit(o: Output)
      requires o.eit != null
      modifies o`eit, o`carry
      ensures o.eit == null && o.carry == None
      ensures o.Holds() + multiset{old(o.eit)} == old(o.Holds())
    {
      hide Output.Holds;
      o.HoldsEit();
      o.eit := null;
      o.carry := None;
      o.HoldsEit();
    }

    /** The assignments of TakeEit, and who holds what after them. */
    method UnlinkEit(o: Output)
      requires Linked() && o in all && o.eit != null
      modifies `bags, `held, o`eit, o`carry
      ensures Linked() && o.eit == null && o.carry == None && held == old(held) + multiset{old(o.eit)}
    {
      hide Linked, Output.Holds, Sum, NoDup;
      LinkedFacts();
      ghost var k :| 0 <= k < |all| && all[k] == o;
      ghost var b: Block := o.eit;
      OnlyAt(k);
      ClearEit(o);
      HandBack(k, b);
    }

    method DetachEit(o: Output)
      requires Inv() && o in all && o.eit != null
      modifies `bags, `held, o`eit, o`carry
      ensures Inv() && o.eit == null && o.carry == None && held == old(held) + multiset{old(o.eit)}
    {
      hide Pooling, Linked, Output.Ok;
      UnlinkEit(o);
    }

    method SetEit(o: Output, b: Block, offset: int)
      requires o.eit == null
      modifies o`eit, o`eitOffset, o`carry
      ensures o.eit == b && o.eitOffset == offset && o.carry == Some(b.ts)
      ensures o.Holds() == old(o.Holds()) + multiset{b}
    {
      hide Output.Holds;
      o.HoldsEit();
      o.eit := b;
      o.eitOffset := offset;
      o.carry := Some(b.ts);
      o.HoldsEit();
    }

    method LinkEit(o: Output, b: Block, offset: int)
      requires Linked() && o in all && o.eit == null && held[b] >= 1
      modifies `bags, `held, o`eit, o`eitOffset, o`carry
      ensures Linked() && o.eit == b && o.eitOffset == offset && o.carry == Some(b.ts) && held == old(held) - multiset{b}
    {
      hide Linked, Output.Holds, Sum, NoDup;
      LinkedFacts();
      ghost var k :| 0 <= k < |all| && all[k] == o;
      OnlyAt(k);
      SetEit(o, b, offset);
      HandOver(k, b);
    }

    method AttachEit(o: Output, b: Block, offset: int)
      requires Inv() && o in all && o.eit == null && held[b] >= 1
      modifies `bags, `held, o`eit, o`eitOffset, o`carry
      ensures Inv() && o.eit == b && o.eitOffset == offset && o.carry == Some(b.ts) && held == old(held) - multiset{b}
    {
      hide Pooling, Linked, Output.Ok;
      LinkEit(o, b, offset);
    }


    /** The EIT packet that is carried over is taken up again. */
    method TakeEit(o: Output) returns (b: Block)
      requires Inv() && Faithful() && o in all && o.eit != null
      modifies `bags, `held, o`eit, o`carry
      ensures Inv() && Faithful() && o.eit == null && o.carry == None
      ensures b == old(o.eit) && old(o.carry) == Some(b.ts) && Sections.Carries(b.ts) && o.eitOffset == Sections.Size(b.ts)
      ensures b in blocks && b !in lifo && owners[b] == 1 && held == old(held) + multiset{b}
    {
      hide Inv, QueuesFaithful, Sections.Carries, Sections.Size, EitOk;
      EitKnown(o);
      b := o.eit;
      DetachEit(o);
      OwnedAndKnown(b);
      NoEit(o);
      forall i | 0 <= i < |all| ensures EitOk(all[i]) {
        assert all[i] != o ==> old(EitOk(all[i]));
      }
    }

    /** A packet with room left is kept for the next section. */
    method KeepEit(o: Output, b: Block, offset: int)
      requires Inv() && Faithful() && o in all && o.eit == null
      requires owners[b] == 1 && held[b] >= 1
      requires Sections.Carries(b.ts) && offset == Sections.Size(b.ts)
      modifies `bags, `held, o`eit, o`eitOffset, o`carry
      ensures Inv() && Faithful() && o.eit == b && o.carry == Some(b.ts)
      ensures held == old(held) - multiset{b}
    {
      hide Inv, QueuesFaithful, Sections.Carries, Sections.Size, EitOk;
      OwnedAndKnown(b);
      AttachEit(o, b, offset);
      NowEit(o, b);
      forall i | 0 <= i < |all| ensures EitOk(all[i]) {
        assert all[i] != o ==> old(EitOk(all[i]));
      }
    }

    lemma OwnedAndKnown(b: Block)
      requires Inv() && b in owners
      ensures b in blocks && b !in lifo
    {
      OwnedKnown(b);
    }

    /** The caller's reference is given up, and the block is put. */
    method Emit(o: Output, b: Block, dts: int)
      requires Inv() && Faithful() && o in all && owners[b] == 1 && held[b] >= 1
      requires dts + o.latency < INT64_MAX
      modifies `owners, `held, `bags, `nextSend, `timer, o`packets, o`ops, b`refcount, b`dts
      ensures Inv() && Faithful()
      ensures o.ops == old(o.ops) + [PacketQueue.Put(Item(dts, b.ts))]
      ensures owners == old(owners) && held == old(held) - multiset{b}
      ensures old(Armed()) ==> Armed()
      ensures old(LeakFree()) ==> LeakFree()
    {
      hide Inv, QueuesFaithful, EitFaithful, Enqueue, LeakFree, Armed;
      ghost var owners0 := owners;
      Surrender(o, b, dts);
      Put(o, b);
      Readded(owners0, b);
      assert owners == old(owners);
      SameOwnersLeakFree();
    }

    twostate lemma SameOwnersLeakFree()
      requires blocks == old(blocks) && lifo == old(lifo) && owners == old(owners)
      ensures old(LeakFree()) ==> LeakFree()
    {
    }

    /** The caller's reference is given up before the block is put. */
    method Surrender(o: Output, b: Block, dts: int)
      requires Inv() && QueuesFaithful() && o in all && owners[b] == 1 && held[b] >= 1
      modifies `owners, `held, b`refcount, b`dts
      ensures Inv() && QueuesFaithful() && PutsOnce(o, b)
      ensures b in blocks && b !in lifo && b.dts == dts
      ensures owners == old(owners) - multiset{b} && held == old(held) - multiset{b}
    {
      hide Pooling, AllOk, Sum, Output.Holds, QueuesFaithful, NoDup;
      SoleNowhere(b);
      b.dts := dts;
      GiveUp(b);
    }

    lemma Readded(bag: multiset<Block>, b: Block)
      requires b in bag
      ensures bag - multiset{b} + multiset{b} == bag
    {
    }

    /** A section stream on output o: `m` is where the stream stands, of which `base` was put before. */
    ghost predicate Tracks(o: Output, m: Sections.Mill, base: seq<Op>, dts: int, keep: bool, kept: Option<Ts>)
      reads o`ops, o`carry
    {
      && o.ops == base + PutOps(m.out, dts)
      && if keep then m.carry == o.carry else m.carry.None? && o.carry == kept
    }

    lemma TracksPut(o: Output, out: seq<Ts>, ts: Ts, ops: seq<Op>, base: seq<Op>, dts: int)
      requires ops == base + PutOps(out, dts)
      requires o.ops == ops + [PacketQueue.Put(Item(dts, ts))]
      ensures o.ops == base + PutOps(out + [ts], dts)
    {
      assert (out + [ts])[..|out|] == out;
    }

    /** The TS packet that a round of OutputPSISection writes to, and its offset. */
    method Current(o: Output, dts: int, keep: bool) returns (b: Block, tsOffset: int)
      requires Inv() && Faithful() && o in all
      modifies `lifo, `blockCount, `blocks, `owners, `held, `bags, o`eit, o`carry, lifo`refcount, lifo`dts
      ensures Inv() && Faithful() && owners[b] == 1 && held == old(held) + multiset{b}
      ensures (b in old(blocks) || fresh(b)) && forall c :: c in blocks ==> c in old(blocks) || fresh(c)
      ensures old(LeakFree()) ==> LeakFree()
      ensures if keep && old(o.carry).Some?
        then b.ts == old(o.carry).value && Sections.Carries(b.ts) && tsOffset == Sections.Size(b.ts)
        else tsOffset == 0
      ensures if keep then o.eit == null && o.carry == None else o.carry == old(o.carry)
    {
      hide Inv, QueuesFaithful, Sections.Carries, Sections.Size, EitOk;
      CarryKnown(o);
      if keep && o.eit != null {
        b := TakeEit(o);
        tsOffset := o.eitOffset;
      } else {
        InPool();
        b := NewBlock(dts);
        tsOffset := 0;
      }
    }

    lemma CarryKnown(o: Output)
      requires EitFaithful() && o in all
      ensures o.eit == null <==> o.carry.None?
      ensures o.carry.Some? ==> Sections.Carries(o.carry.value)
    {
      var k :| 0 <= k < |all| && all[k] == o;
      assert EitOk(all[k]);
    }

    lemma InPool()
      requires Inv()
      ensures forall b :: b in lifo ==> b in blocks
    {
    }

    /** Section bytes are copied behind what is in the TS packet `cur`; a new packet gets its header. */
    method Write(cur: Ts, append: bool, tsOffset: int, section: seq<Byte>, offset: nat, pid: Pid, cc: int, keep: bool, ghost m: Sections.Mill)
      returns (ts: Ts, next: nat, cc': int, last: bool)
      requires Sections.MillOk(m) && m.cc == cc && offset < |section|
      requires append == (keep && m.carry.Some?)
      requires if append then cur == m.carry.value && tsOffset == Sections.Size(cur) else tsOffset == 0
      ensures Sections.Round(m, section, offset, pid, keep) ==
        (if last then Sections.Mill(m.out, Some(ts), cc') else Sections.Mill(m.out + [ts], if keep then None else m.carry, cc'), next)
      ensures last ==> keep && Sections.Carries(ts)
      ensures next <= |section|
    {
      var (ts', n) := Sections.Split(if append then cur else Sections.BLANK, tsOffset == 0, section, offset);
      ts, next, cc' := ts', n, cc;
      if !append {
        ts := ts.(pid := pid, cc := cc);
        cc' := (cc + 1) % 16;
      }
      last := next == |section| && keep && Sections.Size(ts) < TS_SIZE - Sections.MIN_SECTION_FRAGMENT;
    }

    /** A round of OutputPSISection, once it is known which TS packet to write to.  Stuffing the rest of
        a packet is implied by its short data. */
    method WriteRound(o: Output, b: Block, append: bool, tsOffset: int, section: seq<Byte>, offset: nat, pid: Pid, cc: int, dts: int, keep: bool,
                      ghost m: Sections.Mill, ghost base: seq<Op>, ghost kept: Option<Ts>) returns (cc': int, next: nat)
      requires Inv() && Faithful() && o in all && owners[b] == 1 && held[b] >= 1
      requires offset < |section| && dts + o.latency < INT64_MAX
      requires Sections.MillOk(m) && m.cc == cc && append == (keep && m.carry.Some?)
      requires if append then b.ts == m.carry.value && tsOffset == Sections.Size(b.ts) else tsOffset == 0
      requires o.ops == base + PutOps(m.out, dts)
      requires if keep then o.eit == null && o.carry == None else m.carry.None? && o.carry == kept
      modifies `owners, `held, `bags, `nextSend, `timer
      modifies o`packets, o`ops, o`eit, o`eitOffset, o`carry, b`refcount, b`ts, b`dts
      ensures Inv() && Faithful() && held == old(held) - multiset{b}
      ensures old(LeakFree()) ==> LeakFree()
      ensures old(Armed()) ==> Armed()
      ensures var (m', next') := Sections.Round(m, section, offset, pid, keep);
        next == next' && cc' == m'.cc && Tracks(o, m', base, dts, keep, kept)
    {
      hide Inv, Faithful, Armed, LeakFree, PutOps, Sections.Round, Sections.Carries, Sections.Size;
      ghost var ops := o.ops;
      var ts, last;
      ts, next, cc', last := Write(b.ts, append, tsOffset, section, offset, pid, cc, keep, m);
      Finish(o, b, ts, last, dts);
      if !last {
        TracksPut(o, m.out, ts, ops, base, dts);
      }
    }

    method OutputRound(o: Output, section: seq<Byte>, offset: nat, pid: Pid, cc: int, dts: int, keep: bool,
                       ghost m: Sections.Mill, ghost base: seq<Op>, ghost kept: Option<Ts>) returns (cc': int, next: nat)
      requires Inv() && Faithful() && o in all && offset < |section| && dts + o.latency < INT64_MAX
      requires Sections.MillOk(m) && m.cc == cc && Tracks(o, m, base, dts, keep, kept)
      modifies `lifo, `blockCount, `blocks, `owners, `held, `bags, `nextSend, `timer
      modifies o`packets, o`ops, o`eit, o`eitOffset, o`carry, blocks`refcount, blocks`ts, blocks`dts
      ensures Inv() && Faithful() && held == old(held)
      ensures forall c :: c in blocks ==> c in old(blocks) || fresh(c)
      ensures old(LeakFree()) ==> LeakFree()
      ensures old(Armed()) ==> Armed()
      ensures var (m', next') := Sections.Round(m, section, offset, pid, keep);
        next == next' && cc' == m'.cc && Tracks(o, m', base, dts, keep, kept)
    {
      hide Inv, Faithful, Armed, LeakFree, PutOps, Sections.Round, Sections.Carries, Sections.Size;
      var append := keep && o.eit != null;
      EitFollows(o);
      InPool();
      var b, tsOffset := Current(o, dts, keep);
      cc', next := WriteRound(o, b, append, tsOffset, section, offset, pid, cc, dts, keep, m, base, kept);
    }

    /** The written TS packet is kept or put. */
    method Finish(o: Output, b: Block, ts: Ts, last: bool, dts: int)
      requires Inv() && Faithful() && o in all && owners[b] == 1 && held[b] >= 1
      requires dts + o.latency < INT64_MAX
      requires last ==> o.eit == null && Sections.Carries(ts)
      modifies `owners, `held, `bags, `nextSend, `timer
      modifies o`packets, o`ops, o`eit, o`eitOffset, o`carry, b`refcount, b`ts, b`dts
      ensures Inv() && Faithful() && held == old(held) - multiset{b}
      ensures old(LeakFree()) ==> LeakFree()
      ensures old(Armed()) ==> Armed()
      ensures if last
        then o.ops == old(o.ops) && o.carry == Some(ts)
        else o.ops == old(o.ops) + [PacketQueue.Put(Item(dts, ts))] && o.carry == old(o.carry)
    {
      hide Inv, Faithful, Armed, LeakFree, Sections.Carries;
      Fill(b, ts);
      if last {
        KeepEit(o, b, Sections.Size(ts));
      } else {
        Emit(o, b, dts);
      }
    }

    /** What is still to be sent of a section of which `offset` bytes are out. */
    ghost predicate Remains(m: Sections.Mill, section: seq<Byte>, offset: nat, pid: Pid, keep: bool, end: Sections.Mill) {
      && Sections.MillOk(m) && offset <= |section|
      && end == if offset < |section| then Sections.SendFrom(m, section, offset, pid, keep) else m
    }

    lemma RemainsNext(m: Sections.Mill, section: seq<Byte>, offset: nat, pid: Pid, keep: bool, end: Sections.Mill)
      requires Remains(m, section, offset, pid, keep, end) && offset < |section|
      ensures var (m', next) := Sections.Round(m, section, offset, pid, keep);
        offset < next && Remains(m', section, next, pid, keep, end)
    {
    }

    /** OutputPSISection puts the TS packets that the section stream calls for, with `keep` after the
        packet carried over from the last section, and carries over what the stream carries over. */
    method OutputPsiSection(o: Output, section: seq<Byte>, pid: Pid, cc: int, dts: int, keep: bool) returns (cc': int)
      requires Inv() && Faithful() && o in all && section != [] && dts + o.latency < INT64_MAX
      modifies `lifo, `blockCount, `blocks, `owners, `held, `bags, `nextSend, `timer
      modifies o`packets, o`ops, o`eit, o`eitOffset, o`carry, blocks`refcount, blocks`ts, blocks`dts
      ensures Inv() && Faithful() && held == old(held)
      ensures forall c :: c in blocks ==> c in old(blocks) || fresh(c)
      ensures old(LeakFree()) ==> LeakFree()
      ensures old(Armed()) ==> Armed()
      ensures var m := Sections.Mill([], if keep then old(o.carry) else None, cc);
        && Sections.MillOk(m)
        && var m' := Sections.SendFrom(m, section, 0, pid, keep);
        && o.ops == old(o.ops) + PutOps(m'.out, dts) && cc' == m'.cc
        && o.carry == if keep then m'.carry else old(o.carry)
    {
      hide Inv, Faithful, Armed, LeakFree, PutOps, Sections.Round, Sections.SendFrom, Sections.Carries, Remains;
      ghost var m := Sections.Mill([], if keep then o.carry else None, cc);
      ghost var base, kept := o.ops, o.carry;
      var offset := 0;
      CarryFits(o);
      ghost var end := StartSection(o, m, section, pid, keep, dts);
      cc' := cc;
      while offset < |section|
        invariant Inv() && Faithful() && held == old(held)
        invariant forall c :: c in blocks ==> c in old(blocks) || fresh(c)
        invariant old(LeakFree()) ==> LeakFree()
        invariant old(Armed()) ==> Armed()
        invariant Remains(m, section, offset, pid, keep, end) && Tracks(o, m, base, dts, keep, kept) && cc' == m.cc
        decreases |section| - offset
      {
        RemainsNext(m, section, offset, pid, keep, end);
        RemainsOk(m, section, offset, pid, keep, end);
        ghost var m', next' := Sections.Round(m, section, offset, pid, keep).0, Sections.Round(m, section, offset, pid, keep).1;
        cc', offset := OutputRound(o, section, offset, pid, cc', dts, keep, m, base, kept);
        m := m';
      }
      RemainsNothing(m, section, offset, pid, keep, end);
    }

    lemma CarryFits(o: Output)
      requires Faithful() && o in all
      ensures o.carry.Some? ==> Sections.Carries(o.carry.value)
    {
      CarryKnown(o);
    }

    lemma StartSection(o: Output, m: Sections.Mill, section: seq<Byte>, pid: Pid, keep: bool, dts: int) returns (end: Sections.Mill)
      requires Sections.MillOk(m) && section != [] && m.out == [] && m.carry == if keep then o.carry else None
      ensures end == Sections.SendFrom(m, section, 0, pid, keep)
      ensures Remains(m, section, 0, pid, keep, end) && Tracks(o, m, o.ops, dts, keep, o.carry)
    {
      end := Sections.SendFrom(m, section, 0, pid, keep);
    }

    lemma RemainsOk(m: Sections.Mill, section: seq<Byte>, offset: nat, pid: Pid, keep: bool, end: Sections.Mill)
      requires Remains(m, section, offset, pid, keep, end)
      ensures Sections.MillOk(m)
    {
    }

    lemma RemainsNothing(m: Sections.Mill, section: seq<Byte>, offset: nat, pid: Pid, keep: bool, end: Sections.Mill)
      requires Remains(m, section, offset, pid, keep, end) && offset >= |section|
      ensures m == end
    {
    }

    /** FlushEIT: the packet carried over, which must exist, is put. */
    method FlushEit(o: Output, dts: int)
      requires Inv() && Faithful() && o in all && o.eit != null && dts + o.latency < INT64_MAX
      modifies `owners, `held, `bags, `nextSend, `timer
      modifies o`packets, o`ops, o`eit, o`eitOffset, o`carry, o.eit`refcount, o.eit`dts
      ensures Inv() && Faithful() && held == old(held)
      ensures old(LeakFree()) ==> LeakFree()
      ensures old(Armed()) ==> Armed()
      ensures old(o.carry).Some? && o.carry == None && o.eit == null
      ensures o.ops == old(o.ops) + PutOps([old(o.carry).value], dts)
    {
      hide Inv, Faithful, Armed, LeakFree, Sections.Carries, Sections.Size;
      ghost var ts := o.eit.ts;
      var b := TakeEit(o);
      ResetOffset(o);
      Emit(o, b, dts);
      PutOne(ts, dts);
      assert held == old(held) + multiset{b} - multiset{b};
    }

    method ResetOffset(o: Output)
      requires Inv() && Faithful() && o in all && o.eit == null
      modifies o`eitOffset
      ensures Inv() && Faithful()
    {
      hide Pooling, Linked, Output.Ok, QueuesFaithful;
      o.eitOffset := 0;
    }

    lemma PutOne(ts: Ts, dts: int)
      ensures PutOps([ts], dts) == [PacketQueue.Put(Item(dts, ts))]
    {
      assert [ts][..0] == [];
    }

    lemma EitFollows(o: Output)
      requires Faithful() && o in all
      ensures o.eit == null <==> o.carry.None?
    {
      CarryKnown(o);
    }

    // ----- demux_Handle: a TS packet goes to the outputs -----

    /** b may be put into o: it is not o's EIT packet, and if o rewrites PIDs it is not queued there yet. */
    ghost predicate MayTake(o: Output, b: Block)
      reads o`packets, o`eit, o`remap
    {
      o.eit != b && (Remapping(o) ==> forall k, j :: 0 <= k < |o.packets| && 0 <= j < |o.packets[k].items| ==> o.packets[k].items[j] != b)
    }

    predicate EitDue(o: Output, dts: int)
      reads o`eit, (if o.eit == null then {} else {o.eit})`dts
    {
      o.eit != null && dts > o.eit.dts + MAX_EIT_RETENTION
    }

    lemma EitNotHeld(o: Output, b: Block)
      requires Linked() && EitFaithful() && o in all && held[b] >= 1
      ensures o.eit != b
    {
      var k :| 0 <= k < |all| && all[k] == o;
      assert EitOk(all[k]);
      if o.eit == b {
        SumContains(bags, k);
        assert false;
      }
    }

    lemma EitsApart(i: nat, j: nat)
      requires Linked() && EitFaithful() && i < |all| && j < |all| && i != j && all[i].eit != null
      ensures all[i].eit != all[j].eit
    {
      assert EitOk(all[i]) && EitOk(all[j]);
      if all[i].eit == all[j].eit {
        if i < j { SumContainsTwo(bags, i, j); } else { SumContainsTwo(bags, j, i); }
        assert false;
      }
    }

    lemma HeldKnown(b: Block)
      requires Inv() && held[b] >= 1
      ensures b in owners && b in blocks && b !in lifo
    {
      OwnedKnown(b);
    }

    lemma TakesOnce(o: Output, b: Block)
      requires MayTake(o, b)
      ensures PutsOnce(o, b)
    {
    }

    /** output_Put of a block that the caller holds on to. */
    method PutHeld(o: Output, b: Block)
      requires Inv() && Faithful() && o in all && held[b] >= 1 && PutsOnce(o, b)
      requires b.dts + o.latency < INT64_MAX
      modifies `owners, `bags, `nextSend, `timer, o`packets, o`ops, b`refcount
      ensures Inv() && Faithful()
      ensures o.ops == old(o.ops) + [PacketQueue.Put(Item(b.dts, b.ts))]
      ensures old(LeakFree()) ==> LeakFree()
      ensures old(Armed()) ==> Armed()
    {
      hide Inv, QueuesFaithful, EitFaithful, EitRecalled, Armed, Enqueue;
      HeldKnown(b);
      HeldApart(b);
      ghost var ts0: map<Block, Ts> := map c: Block | c in blocks :: c.ts;
      ghost var owners0 := owners;
      EitRecall(ts0);
      Put(o, b);
      EitGrown(ts0, owners0, b);
    }

    lemma EitGrown(ts0: map<Block, Ts>, owners0: multiset<Block>, b: Block)
      requires EitRecalled(ts0, owners0) && owners == owners0 + multiset{b}
      requires forall i :: 0 <= i < |all| ==> all[i].eit != b
      requires forall c :: c in ts0 ==> c in blocks && c.ts == ts0[c]
      ensures EitFaithful()
    {
    }

    lemma HeldApart(b: Block)
      requires Inv() && EitFaithful() && held[b] >= 1
      ensures forall i :: 0 <= i < |all| ==> all[i].eit != b && EitOk(all[i])
    {
      forall i | 0 <= i < |all| ensures all[i].eit != b {
        EitNotHeld(all[i], b);
      }
    }

    /** What output o is given of a TS packet on `pid`, and its EIT packet if that is due. */
    ghost function ServedOps(o: Output, item: Item, pid: int, due: bool, carry: Option<Ts>): seq<Op>
      reads o`pcrPid
    {
      (if o.pcrPid != pid || item.ts.pcr then [PacketQueue.Put(item)] else []) +
      (if due && carry.Some? then PutOps([carry.value], item.dts) else [])
    }

    /** The body of the first output loop of demux_Handle. */
    method Serve(o: Output, b: Block, pid: int)
      requires Inv() && Faithful() && o in all && held[b] >= 1 && MayTake(o, b)
      requires b.dts + o.latency < INT64_MAX
      modifies `owners, `held, `bags, `nextSend, `timer
      modifies o`packets, o`ops, o`eit, o`eitOffset, o`carry
      modifies b`refcount, (if o.eit == null then {} else {o.eit})`refcount, (if o.eit == null then {} else {o.eit})`dts
      ensures Inv() && Faithful() && held == old(held)
      ensures b.dts == old(b.dts)
      ensures o.ops == old(o.ops) + ServedOps(o, Item(b.dts, b.ts), pid, old(EitDue(o, b.dts)), old(o.carry))
      ensures o.carry == if old(EitDue(o, b.dts)) then None else old(o.carry)
      ensures Gives(old(o.ops), o.ops, Item(b.dts, b.ts), o.pcrPid != pid || b.ts.pcr,
                    if old(o.eit != null && b.dts > o.eit.dts + 500_000) then old(o.carry) else None, false)
      ensures old(LeakFree()) ==> LeakFree()
      ensures old(Armed()) ==> Armed()
    {
      hide Inv, Faithful, Armed, LeakFree, MayTake, PutsOnce, PutOps;
      TakesOnce(o, b);
      EitFollows(o);
      NotEit(o, b);
      if o.pcrPid != pid || b.ts.pcr {
        PutHeld(o, b);
      }
      if o.eit != null && b.dts > o.eit.dts + MAX_EIT_RETENTION {
        OnePutOp(o.carry.value, b.dts);
        FlushEit(o, b.dts);
      }
    }

    lemma NotEit(o: Output, b: Block)
      requires Inv() && Faithful() && o in all && held[b] >= 1
      ensures o.eit != b
    {
      EitNotHeld(o, b);
    }

    /** The caller lets go of a block, which goes back to the pool if nobody else wants it. */
    method ReleaseHeld(b: Block)
      requires Inv() && Faithful() && held[b] >= 1
      modifies `lifo, `blockCount, `blocks, `owners, `held, b`refcount, b`ts
      ensures Inv() && Faithful()
      ensures owners == old(owners) - multiset{b} && held == old(held) - multiset{b}
      ensures blocks <= old(blocks)
      ensures if b in owners then b.ts == old(b.ts) else b in blocks ==> b in lifo
      ensures old(LeakFree()) ==> LeakFree()
    {
      hide Inv, QueuesFaithful, EitFaithful, QueuesRecalled, EitRecalled, LeakFree;
      HeldKnown(b);
      ghost var ts0: map<Block, Ts> := map c: Block | c in blocks :: c.ts;
      ghost var owners0 := owners;
      QueuesRecall(ts0);
      EitRecall(ts0);
      DropHeld(b);
      Readded(owners0, b);
      assert multiset([b]) == multiset{b};
      FaithfulAgain(ts0);
      EitFaithfulAgain(ts0, owners0, [b]);
    }

    method DropHeld(b: Block)
      requires Inv() && held[b] >= 1
      modifies `lifo, `blockCount, `blocks, `owners, `held, b`refcount, b`ts
      ensures Inv() && owners == old(owners) - multiset{b} && held == old(held) - multiset{b}
      ensures blocks <= old(blocks)
      ensures if b in owners then b.ts == old(b.ts) else b in blocks ==> b in lifo
      ensures old(LeakFree()) ==> LeakFree()
    {
      hide Conserved, Output.Ok, Output.Holds, Sum, NoDup;
      HeldKnown(b);
      ghost var owners0 := owners;
      Drop(b, false);
      Less(b, owners0, Sum(bags));
      held := held - multiset{b};
    }

    lemma Less(b: Block, owners0: multiset<Block>, others: multiset<Block>)
      requires owners0 == held + others && held[b] >= 1
      ensures owners0 - multiset{b} == (held - multiset{b}) + others
    {
    }

    /** o has not been given b yet, and is as it was. */
    ghost predicate Waiting(o: Output, b: Block, was: Was)
      reads o`eit, o`ops, o`carry, b`dts, (if o.eit == null then {} else {o.eit})`dts
    {
      o.ops == was.ops && o.carry == was.carry && EitDue(o, b.dts) == was.due
    }

    ghost predicate ServedSome(done: seq<Option<Output>>, b: Block, item: Item, pid: int, was: seq<Was>, spared: set<Output>)
      reads all, b`dts, set o | o in all && o.eit != null :: o.eit
    {
      && |was| == |all|
      && forall i :: 0 <= i < |all| ==>
        if Some(all[i]) in done
        then all[i].ops == was[i].ops + ServedOps(all[i], item, pid, was[i].due, was[i].carry) && all[i].carry == CarryAfter(was[i], true)
        else Waiting(all[i], b, was[i]) && (all[i] !in spared ==> MayTake(all[i], b))
    }

    method ServeStep(o: Output, b: Block, pid: int, ghost done: seq<Option<Output>>, ghost item: Item, ghost was: seq<Was>, ghost spared: set<Output>)
      requires Inv() && Faithful() && o in all && held[b] >= 1 && Some(o) !in done && o !in spared
      requires b.dts + o.latency < INT64_MAX && item == Item(b.dts, b.ts)
      requires ServedSome(done, b, item, pid, was, spared)
      modifies `owners, `held, `bags, `nextSend, `timer
      modifies o`packets, o`ops, o`eit, o`eitOffset, o`carry
      modifies b`refcount, (if o.eit == null then {} else {o.eit})`refcount, (if o.eit == null then {} else {o.eit})`dts
      ensures Inv() && Faithful() && held == old(held)
      ensures item == Item(b.dts, b.ts)
      ensures ServedSome(done + [Some(o)], b, item, pid, was, spared)
      ensures old(LeakFree()) ==> LeakFree()
      ensures old(Armed()) ==> Armed()
    {
      hide Pooling, Linked, AllOk, QueuesFaithful, EitFaithful, Armed, LeakFree, MayTake, ServedOps, NoDup;
      ghost var k :| 0 <= k < |all| && all[k] == o;
      NotEit(o, b);
      Apart(k);
      Serve(o, b, pid);
      forall i | 0 <= i < |all| && Some(all[i]) !in done + [Some(o)] ensures Waiting(all[i], b, was[i]) && (all[i] !in spared ==> MayTake(all[i], b)) {
        assert all[i] != o && Some(all[i]) !in done;
        assert old(Waiting(all[i], b, was[i]));
      }
    }

    lemma Apart(k: nat)
      requires Inv() && EitFaithful() && k < |all|
      ensures forall i :: 0 <= i < |all| && i != k ==> all[i] != all[k] && (all[i].eit != null ==> all[i].eit != all[k].eit)
    {
      forall i | 0 <= i < |all| && i != k && all[i].eit != null ensures all[i].eit != all[k].eit {
        EitsApart(i, k);
      }
    }

    /** The first output loop of demux_Handle, over the outputs registered on the PID. */
    method ServeAll(regs: seq<Option<Output>>, b: Block, pid: int, ghost item: Item, ghost was: seq<Was>, ghost spared: set<Output>)
      requires Inv() && Faithful() && held[b] >= 1 && item == Item(b.dts, b.ts)
      requires forall o :: o in all ==> b.dts + o.latency < INT64_MAX
      requires forall i :: 0 <= i < |regs| && regs[i].Some? ==> regs[i].value in all && regs[i].value !in spared
      requires forall i, j :: 0 <= i < j < |regs| && regs[i].Some? ==> regs[i] != regs[j]
      requires ServedSome([], b, item, pid, was, spared) && b in blocks
      modifies `owners, `held, `bags, `nextSend, `timer
      modifies all`packets, all`ops, all`eit, all`eitOffset, all`carry, blocks`refcount, blocks`dts
      ensures Inv() && Faithful() && held == old(held) && item == Item(b.dts, b.ts)
      ensures ServedSome(regs, b, item, pid, was, spared)
      ensures old(LeakFree()) ==> LeakFree()
      ensures old(Armed()) ==> Armed()
    {
      hide Inv, Faithful, Armed, LeakFree, ServedSome;
      var j := 0;
      while j < |regs|
        invariant 0 <= j <= |regs|
        invariant Inv() && Faithful() && held == old(held) && item == Item(b.dts, b.ts)
        invariant ServedSome(regs[..j], b, item, pid, was, spared)
        invariant old(LeakFree()) ==> LeakFree()
        invariant old(Armed()) ==> Armed()
      {
        assert regs[..j + 1] == regs[..j] + [regs[j]];
        if regs[j].Some? {
          KnownEit(regs[j].value);
          ServeStep(regs[j].value, b, pid, regs[..j], item, was, spared);
        } else {
          ServedHole(regs[..j], b, item, pid, was, spared);
        }
        j := j + 1;
      }
      assert regs[..j] == regs;
    }

    lemma KnownEit(o: Output)
      requires Inv() && Faithful() && o in all
      ensures o.eit != null ==> o.eit in blocks && o.eit in owners
    {
      if o.eit != null {
        EitKnown(o);
        OwnedKnown(o.eit);
      }
    }

    lemma ServedHole(done: seq<Option<Output>>, b: Block, item: Item, pid: int, was: seq<Was>, spared: set<Output>)
      requires ServedSome(done, b, item, pid, was, spared)
      ensures ServedSome(done + [None], b, item, pid, was, spared)
    {
    }

    /** A passthrough output and the duplication output get every TS packet. */
    ghost function PassOps(o: Output, item: Item): seq<Op>
      reads o`valid, o`passthrough
    {
      if o.valid && (o == dup || o.passthrough) then [PacketQueue.Put(item)] else []
    }

    /** What output o is given of a TS packet in all. */
    ghost function HandedOps(o: Output, regs: seq<Option<Output>>, item: Item, pid: int, was: Was): seq<Op>
      reads o`pcrPid
    {
      if Some(o) in regs then ServedOps(o, item, pid, was.due, was.carry) else []
    }

    /** All registered outputs are served, and those in `done` have got what passes through. */
    ghost predicate PassedTo(done: set<int>, regs: seq<Option<Output>>, b: Block, item: Item, pid: int, was: seq<Was>, spared: set<Output>)
      reads all
    {
      && |was| == |all|
      && forall i :: 0 <= i < |all| ==>
        && all[i].ops == was[i].ops + HandedOps(all[i], regs, item, pid, was[i]) + (if i in done then PassOps(all[i], item) else [])
        && all[i].carry == CarryAfter(was[i], Some(all[i]) in regs)
        && (i !in done && Some(all[i]) !in regs && all[i] !in spared ==> MayTake(all[i], b))
    }

    /** Rewriting PIDs needs blocks that are in a packet once; an output that remaps must not get a
        TS packet both ways. */
    ghost predicate OneWay(regs: seq<Option<Output>>)
      reads all`remap, all`passthrough, all`valid
    {
      && Some(dup) !in regs
      && forall i :: 0 <= i < |all| && Remapping(all[i]) && all[i].valid && all[i].passthrough ==> Some(all[i]) !in regs
    }

    /** The outputs that have b already get it neither way. */
    ghost predicate Spare(spared: set<Output>, regs: seq<Option<Output>>)
      reads all`passthrough
    {
      forall i :: 0 <= i < |all| && all[i] in spared ==> Some(all[i]) !in regs && all[i] != dup && !all[i].passthrough
    }

    lemma SparedNot(spared: set<Output>, regs: seq<Option<Output>>)
      requires Spare(spared, regs)
      requires forall i :: 0 <= i < |regs| && regs[i].Some? ==> regs[i].value in all
      ensures forall i :: 0 <= i < |regs| && regs[i].Some? ==> regs[i].value !in spared
    {
    }

    method PassStep(o: Output, ghost k: nat, b: Block, ghost regs: seq<Option<Output>>)
      requires Inv() && Faithful() && k < |all| && o == all[k] && held[b] >= 1 && OneWay(regs)
      requires b.dts + o.latency < INT64_MAX && (Some(o) !in regs ==> MayTake(o, b))
      requires o.valid && (o == dup || o.passthrough)
      modifies `owners, `bags, `nextSend, `timer, o`packets, o`ops, b`refcount
      ensures Inv() && Faithful()
      ensures forall i :: 0 <= i < |all| && i != k ==> all[i].ops == old(all[i].ops) && (old(MayTake(all[i], b)) ==> MayTake(all[i], b))
      ensures o.ops == old(o.ops) + PassOps(o, Item(b.dts, b.ts))
      ensures old(LeakFree()) ==> LeakFree()
      ensures old(Armed()) ==> Armed()
    {
      hide Inv, QueuesFaithful, EitFaithful, Armed, LeakFree, MayTake, PutsOnce;
      Apart(k);
      if Remapping(o) {
        TakesOnce(o, b);
      } else {
        NoRewriting(o, b);
      }
      PutHeld(o, b);
    }

    lemma NoRewriting(o: Output, b: Block)
      requires !Remapping(o)
      ensures PutsOnce(o, b)
    {
    }

    lemma PassedNext(done: set<int>, k: nat, regs: seq<Option<Output>>, b: Block, item: Item, pid: int, was: seq<Was>, ops0: seq<seq<Op>>, spared: set<Output>)
      requires |was| == |all| == |ops0| && k < |all| && k !in done
      requires forall i :: 0 <= i < |all| ==>
        ops0[i] == was[i].ops + HandedOps(all[i], regs, item, pid, was[i]) + (if i in done then PassOps(all[i], item) else [])
      requires forall i :: 0 <= i < |all| && i != k && i !in done && Some(all[i]) !in regs && all[i] !in spared ==> MayTake(all[i], b)
      requires forall i :: 0 <= i < |all| && i != k ==> all[i].ops == ops0[i]
      requires all[k].ops == ops0[k] + PassOps(all[k], item)
      requires forall i :: 0 <= i < |all| ==> all[i].carry == CarryAfter(was[i], Some(all[i]) in regs)
      ensures PassedTo(done + {k}, regs, b, item, pid, was, spared)
    {
      hide HandedOps, PassOps, MayTake;
    }

    lemma PassedBefore(done: set<int>, regs: seq<Option<Output>>, b: Block, item: Item, pid: int, was: seq<Was>, spared: set<Output>) returns (ops0: seq<seq<Op>>)
      requires PassedTo(done, regs, b, item, pid, was, spared)
      ensures |ops0| == |all| == |was| && forall i :: 0 <= i < |all| ==> all[i].ops == ops0[i]
      ensures forall i :: 0 <= i < |all| ==>
        ops0[i] == was[i].ops + HandedOps(all[i], regs, item, pid, was[i]) + (if i in done then PassOps(all[i], item) else [])
      ensures forall i :: 0 <= i < |all| && i !in done && Some(all[i]) !in regs && all[i] !in spared ==> MayTake(all[i], b)
      ensures forall i :: 0 <= i < |all| ==> all[i].carry == CarryAfter(was[i], Some(all[i]) in regs)
    {
      ops0 := AllOps(all);
    }

    method PassOne(o: Output, ghost k: nat, b: Block, ghost done: set<int>, ghost regs: seq<Option<Output>>, ghost pid: int, ghost item: Item, ghost was: seq<Was>, ghost spared: set<Output>)
      requires Inv() && Faithful() && k < |all| && o == all[k] && held[b] >= 1 && k !in done && OneWay(regs) && Spare(spared, regs)
      requires b.dts + o.latency < INT64_MAX && item == Item(b.dts, b.ts)
      requires PassedTo(done, regs, b, item, pid, was, spared)
      modifies `owners, `bags, `nextSend, `timer, o`packets, o`ops, b`refcount
      ensures Inv() && Faithful()
      ensures PassedTo(done + {k}, regs, b, item, pid, was, spared)
      ensures old(LeakFree()) ==> LeakFree()
      ensures old(Armed()) ==> Armed()
    {
      hide Inv, Faithful, Armed, LeakFree, MayTake, HandedOps, PassedTo, OneWay;
      ghost var ops0 := PassedBefore(done, regs, b, item, pid, was, spared);
      if o.valid && (o == dup || o.passthrough) {
        PassStep(o, k, b, regs);
      }
      PassedNext(done, k, regs, b, item, pid, was, ops0, spared);
    }

    /** The second output loop of demux_Handle, and the duplication output. */
    method PassAll(b: Block, ghost regs: seq<Option<Output>>, ghost pid: int, ghost item: Item, ghost was: seq<Was>, ghost spared: set<Output>)
      requires Inv() && Faithful() && held[b] >= 1 && OneWay(regs) && Spare(spared, regs) && item == Item(b.dts, b.ts)
      requires forall i :: 0 <= i < |all| ==> b.dts + all[i].latency < INT64_MAX
      requires PassedTo({}, regs, b, item, pid, was, spared)
      modifies `owners, `bags, `nextSend, `timer, all`packets, all`ops, b`refcount
      ensures Inv() && Faithful() && item == Item(b.dts, b.ts)
      ensures HandedAll(regs, item, pid, was)
      ensures old(LeakFree()) ==> LeakFree()
      ensures old(Armed()) ==> Armed()
    {
      hide Inv, Faithful, Armed, LeakFree, HandedAll, PassedTo, OneWay;
      ghost var done := {};
      var i := 0;
      Order();
      while i < |outputs|
        invariant 0 <= i <= |outputs| && Inv() && Faithful()
        invariant PassedTo(done, regs, b, item, pid, was, spared)
        invariant forall k :: k in done <==> 1 <= k <= i
        invariant old(LeakFree()) ==> LeakFree()
        invariant old(Armed()) ==> Armed()
      {
        assert outputs[i] == all[i + 1];
        PassOne(outputs[i], i + 1, b, done, regs, pid, item, was, spared);
        done := done + {i + 1};
        i := i + 1;
      }
      assert dup == all[0];
      PassOne(dup, 0, b, done, regs, pid, item, was, spared);
      AllPassed(done + {0}, regs, b, item, pid, was, spared);
    }

    /** What SendTDT gives to output i of a TS packet with the time; `dvb` are the outputs that are DVB compliant and
        have an SDT. */
    ghost function TdtOps(i: nat, dvb: seq<bool>, item: Item): seq<Op>
      requires i < |all| == |dvb| + 1
      reads all`valid, all`passthrough
    {
      if i > 0 && dvb[i - 1] && all[i].valid && !all[i].passthrough then [PacketQueue.Put(item)] else []
    }

    /** The first n outputs have been told the time; those that got nothing, or do not rewrite PIDs, may get more. */
    ghost predicate Told(n: nat, dvb: seq<bool>, b: Block, item: Item, ops0: seq<seq<Op>>)
      reads all`packets, all`eit, all`remap, all`ops, all`valid, all`passthrough
    {
      && |ops0| == |all| == |dvb| + 1
      && forall i: nat :: i < |all| ==>
        && all[i].ops == ops0[i] + (if i <= n then TdtOps(i, dvb, item) else [])
        && (i > n || TdtOps(i, dvb, item) == [] || !Remapping(all[i]) ==> MayTake(all[i], b))
    }

    method TellOne(o: Output, ghost k: nat, b: Block)
      requires Inv() && Faithful() && k < |all| && o == all[k] && held[b] >= 1 && MayTake(o, b)
      requires b.dts + o.latency < INT64_MAX
      modifies `owners, `bags, `nextSend, `timer, o`packets, o`ops, b`refcount
      ensures Inv() && Faithful()
      ensures forall i :: 0 <= i < |all| && i != k ==> all[i].ops == old(all[i].ops) && (old(MayTake(all[i], b)) ==> MayTake(all[i], b))
      ensures o.ops == old(o.ops) + [PacketQueue.Put(Item(b.dts, b.ts))] && (!Remapping(o) ==> MayTake(o, b))
      ensures old(LeakFree()) ==> LeakFree()
      ensures old(Armed()) ==> Armed()
    {
      hide Inv, QueuesFaithful, EitFaithful, Armed, LeakFree, PutsOnce;
      Apart(k);
      TakesOnce(o, b);
      PutHeld(o, b);
    }

    /** SendTDT */
    method SendTdt(b: Block, dvb: seq<bool>, ghost item: Item)
      requires Inv() && Faithful() && held[b] >= 1 && |all| == |dvb| + 1 && item == Item(b.dts, b.ts)
      requires forall o :: o in all ==> b.dts + o.latency < INT64_MAX
      requires forall i :: 0 <= i < |all| ==> MayTake(all[i], b)
      modifies `owners, `bags, `nextSend, `timer, all`packets, all`ops, b`refcount
      ensures Inv() && Faithful()
      ensures Told(|outputs|, dvb, b, item, old(AllOps(all)))
      ensures old(LeakFree()) ==> LeakFree()
      ensures old(Armed()) ==> Armed()
    {
      hide Inv, Faithful, Armed, LeakFree, Told, MayTake;
      Order();
      ghost var ops0 := AllOps(all);
      var i := 0;
      NoneTold(dvb, b, item, ops0);
      while i < |outputs|
        invariant 0 <= i <= |outputs| && Inv() && Faithful()
        invariant Told(i, dvb, b, item, ops0)
        invariant old(LeakFree()) ==> LeakFree()
        invariant old(Armed()) ==> Armed()
      {
        assert outputs[i] == all[i + 1];
        TellNext(outputs[i], i, b, dvb, item, ops0);
        i := i + 1;
      }
    }

    lemma NoneTold(dvb: seq<bool>, b: Block, item: Item, ops0: seq<seq<Op>>)
      requires ops0 == AllOps(all) && |all| == |dvb| + 1
      requires forall i :: 0 <= i < |all| ==> MayTake(all[i], b)
      ensures Told(0, dvb, b, item, ops0)
    {
      hide MayTake;
    }

    method TellNext(o: Output, i: nat, b: Block, dvb: seq<bool>, ghost item: Item, ghost ops0: seq<seq<Op>>)
      requires Inv() && Faithful() && i + 1 < |all| && o == all[i + 1] && held[b] >= 1 && item == Item(b.dts, b.ts)
      requires b.dts + o.latency < INT64_MAX && Told(i, dvb, b, item, ops0)
      modifies `owners, `bags, `nextSend, `timer, o`packets, o`ops, b`refcount
      ensures Inv() && Faithful()
      ensures Told(i + 1, dvb, b, item, ops0)
      ensures old(LeakFree()) ==> LeakFree()
      ensures old(Armed()) ==> Armed()
    {
      hide Inv, Faithful, Armed, LeakFree, MayTake;
      if o.valid && !o.passthrough && dvb[i] {
        TellOne(o, i + 1, b);
      }
    }

    /** The end of demux_Handle for a TS packet that is valid: the outputs registered on its PID get
        it, passthrough outputs and the duplication output get it, and the reference that came with
        it is dropped. */
    method Handle(b: Block, regs: seq<Option<Output>>, pid: int, ghost spared: set<Output>)
      requires Inv() && Faithful() && held[b] >= 1 && OneWay(regs)
      requires forall o :: o in all ==> b.dts + o.latency < INT64_MAX
      requires Spare(spared, regs) && forall i :: 0 <= i < |all| && all[i] !in spared ==> MayTake(all[i], b)
      requires forall i :: 0 <= i < |regs| && regs[i].Some? ==> regs[i].value in all
      requires forall i, j :: 0 <= i < j < |regs| && regs[i].Some? ==> regs[i] != regs[j]
      modifies `lifo, `blockCount, `blocks, `owners, `held, `bags, `nextSend, `timer
      modifies all`packets, all`ops, all`eit, all`eitOffset, all`carry, blocks`refcount, blocks`dts, b`ts
      ensures Inv() && Faithful() && held == old(held) - multiset{b}
      ensures HandedAll(regs, old(Item(b.dts, b.ts)), pid, old(AllWas(all, b.dts)))
      ensures forall i :: 0 <= i < |all| ==> var due := old(all[i].eit != null && b.dts > all[i].eit.dts + 500_000);
        && all[i].carry == (if Some(all[i]) in regs && due then None else old(all[i].carry))
        && Gives(old(all[i].ops), all[i].ops, old(Item(b.dts, b.ts)), Some(all[i]) in regs && (all[i].pcrPid != pid || old(b.ts.pcr)),
                 if Some(all[i]) in regs && due then old(all[i].carry) else None, all[i].valid && (all[i] == dup || all[i].passthrough))
      ensures b in owners || (b in blocks ==> b in lifo)
      ensures blocks <= old(blocks)
      ensures old(LeakFree()) ==> LeakFree()
      ensures old(Armed()) ==> Armed()
    {
      hide Inv, Faithful, Armed, LeakFree, HandedAll, OneWay, MayTake;
      HeldKnown(b);
      ghost var item, was := Item(b.dts, b.ts), AllWas(all, b.dts);
      Distribute(b, regs, pid, spared);
      HandedCarry(regs, item, pid, was);
      ReleaseHeld(b);
    }

    lemma HandedCarry(regs: seq<Option<Output>>, item: Item, pid: int, was: seq<Was>)
      requires HandedAll(regs, item, pid, was)
      ensures |was| == |all| && forall i :: 0 <= i < |all| ==>
        && all[i].carry == (if Some(all[i]) in regs && was[i].due then None else was[i].carry)
        && Gives(was[i].ops, all[i].ops, item, Some(all[i]) in regs && (all[i].pcrPid != pid || item.ts.pcr),
                 if Some(all[i]) in regs && was[i].due then was[i].carry else None, all[i].valid && (all[i] == dup || all[i].passthrough))
    {
      hide PutOps;
      forall i | 0 <= i < |all| && was[i].carry.Some?
        ensures PutOps([was[i].carry.value], item.dts) == [PacketQueue.Put(Item(item.dts, was[i].carry.value))]
      {
        OnePutOp(was[i].carry.value, item.dts);
      }
    }

    /** Every output has got what it is to get of the TS packet, since it was as `was` says. */
    ghost predicate HandedAll(regs: seq<Option<Output>>, item: Item, pid: int, was: seq<Was>)
      reads all`ops, all`carry, all`pcrPid, all`valid, all`passthrough
    {
      && |was| == |all|
      && forall i :: 0 <= i < |all| ==>
           && all[i].ops == was[i].ops + HandedOps(all[i], regs, item, pid, was[i]) + PassOps(all[i], item)
           && all[i].carry == CarryAfter(was[i], Some(all[i]) in regs)
    }

    method Distribute(b: Block, regs: seq<Option<Output>>, pid: int, ghost spared: set<Output>)
      requires Inv() && Faithful() && held[b] >= 1 && OneWay(regs)
      requires forall o :: o in all ==> b.dts + o.latency < INT64_MAX
      requires Spare(spared, regs) && forall i :: 0 <= i < |all| && all[i] !in spared ==> MayTake(all[i], b)
      requires forall i :: 0 <= i < |regs| && regs[i].Some? ==> regs[i].value in all
      requires forall i, j :: 0 <= i < j < |regs| && regs[i].Some? ==> regs[i] != regs[j]
      modifies `owners, `held, `bags, `nextSend, `timer
      modifies all`packets, all`ops, all`eit, all`eitOffset, all`carry, blocks`refcount, blocks`dts
      ensures Inv() && Faithful() && held == old(held) && Item(b.dts, b.ts) == old(Item(b.dts, b.ts))
      ensures HandedAll(regs, old(Item(b.dts, b.ts)), pid, old(AllWas(all, b.dts)))
      ensures old(LeakFree()) ==> LeakFree()
      ensures old(Armed()) ==> Armed()
    {
      hide Inv, Faithful, Armed, LeakFree, MayTake, HandedAll, ServedSome, PassedTo, OneWay;
      HeldKnown(b);
      ghost var item := Item(b.dts, b.ts);
      ghost var was := AllWas(all, b.dts);
      NoneServed(b, item, pid, was, spared);
      SparedNot(spared, regs);
      ServeAll(regs, b, pid, item, was, spared);
      NonePassed(regs, b, item, pid, was, spared);
      PassAll(b, regs, pid, item, was, spared);
    }

    lemma NoneServed(b: Block, item: Item, pid: int, was: seq<Was>, spared: set<Output>)
      requires forall i :: 0 <= i < |all| && all[i] !in spared ==> MayTake(all[i], b)
      requires |was| == |all| && forall i :: 0 <= i < |all| ==> was[i] == Was(all[i].ops, all[i].carry, EitDue(all[i], b.dts))
      ensures ServedSome([], b, item, pid, was, spared)
    {
    }

    lemma NonePassed(regs: seq<Option<Output>>, b: Block, item: Item, pid: int, was: seq<Was>, spared: set<Output>)
      requires ServedSome(regs, b, item, pid, was, spared)
      ensures PassedTo({}, regs, b, item, pid, was, spared)
    {
    }

    lemma AllPassed(done: set<int>, regs: seq<Option<Output>>, b: Block, item: Item, pid: int, was: seq<Was>, spared: set<Output>)
      requires PassedTo(done, regs, b, item, pid, was, spared) && forall k :: 0 <= k < |all| ==> k in done
      ensures HandedAll(regs, item, pid, was)
    {
    }

    ghost function AllWas(os: seq<Output>, dts: int): (was: seq<Was>)
      reads os, set o | o in os && o.eit != null :: o.eit
      ensures |was| == |os| && forall i :: 0 <= i < |os| ==> was[i] == Was(os[i].ops, os[i].carry, EitDue(os[i], dts))
    {
      if os == [] then [] else [Was(os[0].ops, os[0].carry, EitDue(os[0], dts))] + AllWas(os[1..], dts)
    }

    // ----- output_Close -----

    lemma ReadyToDrop(blks: seq<Block>, start: Start)
      requires forall b :: b in blks ==> b in start.ts && start.ts[b] == b.ts
      ensures Restoring(multiset{}, multiset(blks), start, false)
    {
      assert forall b :: b in multiset(blks) ==> b in blks;
    }

    lemma DroppedAsWas(blks: seq<Block>, start: Start)
      requires Restoring(multiset(blks), multiset{}, start, false)
      ensures forall b :: b in blks && b in owners ==> b in start.ts && b.ts == start.ts[b]
    {
      assert forall b :: b in blks ==> b in multiset(blks);
    }

    /** The inner loop of output_Close. */
    method DropBlocks(blks: seq<Block>, ghost ts0: map<Block, Ts>)
      requires Pooling() && multiset(blks) <= owners
      requires forall b :: b in blks ==> b in ts0 && ts0[b] == b.ts
      modifies `lifo, `blockCount, `blocks, `owners
      modifies (set b | b in blks)`refcount, (set b | b in blks)`ts
      ensures Pooling() && blocks <= old(blocks) && owners + multiset(blks) == old(owners)
      ensures forall b :: b in blks && b in owners ==> b in ts0 && b.ts == ts0[b]
      ensures old(LeakFree()) ==> LeakFree()
    {
      hide Pooling, Restoring, Releasing;
      ghost var start := Start(blocks, lifo, owners, ts0);
      ReadyToDrop(blks, start);
      StartReleasing(blks, start);
      Release(blks, false, start);
      DroppedAsWas(blks, start);
      Released(multiset(blks), start);
      if old(LeakFree()) {
        ReleasedLeakFree(multiset(blks), start);
      }
    }

    /** The references of the first packet are dropped, and the packet goes. */
    method DropPacket(o: Output, ghost ts0: map<Block, Ts>)
      requires Inv() && o in all && o.packets != []
      requires forall b :: b in o.packets[0].items ==> b in ts0 && ts0[b] == b.ts
      modifies `lifo, `blockCount, `blocks, `owners, `bags, o`packets, o`ops
      modifies (set b | b in o.packets[0].items)`refcount, (set b | b in o.packets[0].items)`ts
      ensures Inv() && blocks <= old(blocks)
      ensures o.packets == old(o.packets)[1..] && o.ops == old(o.ops) + [PacketQueue.Flush]
      ensures owners + multiset(old(o.packets)[0].items) == old(owners)
      ensures forall b :: b in old(o.packets)[0].items && b in owners ==> b in ts0 && b.ts == ts0[b]
      ensures old(LeakFree()) ==> LeakFree()
    {
      hide Inv, Detached, LeakFree;
      DropHead(o, ts0);
      DropFirst(o);
    }

    method DropHead(o: Output, ghost ts0: map<Block, Ts>)
      requires Inv() && o in all && o.packets != []
      requires forall b :: b in o.packets[0].items ==> b in ts0 && ts0[b] == b.ts
      modifies `lifo, `blockCount, `blocks, `owners
      modifies (set b | b in o.packets[0].items)`refcount, (set b | b in o.packets[0].items)`ts
      ensures Detached(multiset(o.packets[0].items)) && blocks <= old(blocks)
      ensures owners + multiset(o.packets[0].items) == old(owners)
      ensures forall b :: b in o.packets[0].items && b in owners ==> b in ts0 && b.ts == ts0[b]
      ensures old(LeakFree()) ==> LeakFree()
    {
      hide Pooling, Output.Ok, Output.Holds, Sum, NoDup, LeakFree, Output.Room;
      HeadFacts(o);
      DropBlocks(o.packets[0].items, ts0);
    }

    /** The other queues do not change by it. */
    method DropPacketFirst(o: Output, ghost ts0: map<Block, Ts>)
      requires Inv() && o in all && o.packets != [] && QueuesRecalled(ts0)
      requires forall b :: b in o.packets[0].items ==> b in ts0 && ts0[b] == b.ts
      modifies `lifo, `blockCount, `blocks, `owners, `bags, o`packets, o`ops
      modifies (set b | b in o.packets[0].items)`refcount, (set b | b in o.packets[0].items)`ts
      ensures Inv() && blocks <= old(blocks) && QueuesRecalled(ts0)
      ensures o.packets == old(o.packets)[1..]
      ensures owners + multiset(old(o.packets)[0].items) == old(owners)
      ensures forall b :: b in old(o.packets)[0].items && b in owners ==> b in ts0 && b.ts == ts0[b]
      ensures old(LeakFree()) ==> LeakFree()
    {
      hide Inv, Output.Ok, Recalled, Run, LeakFree, Output.Room;
      DropPacket(o, ts0);
      RunAppend(old(o.ops), PacketQueue.Flush, o.Room(), o.retention);
      RecalledFirst(old(o.packets), old(o.Log().queue), ts0);
      forall i | 0 <= i < |all| ensures Recalled(all[i].packets, all[i].Log().queue, ts0) {
        assert all[i] != o ==> all[i].packets == old(all[i].packets) && all[i].ops == old(all[i].ops);
      }
    }

    /** Nor does what is in the blocks that remain. */
    method DropPacketKept(o: Output)
      requires Inv() && Faithful() && o in all && o.packets != []
      modifies `lifo, `blockCount, `blocks, `owners, `bags, o`packets, o`ops
      modifies (set b | b in o.packets[0].items)`refcount, (set b | b in o.packets[0].items)`ts
      ensures Inv() && Faithful() && blocks <= old(blocks)
      ensures o.packets == old(o.packets)[1..]
      ensures owners + old(o.Holds()) == old(owners) + o.Holds()
      ensures old(LeakFree()) ==> LeakFree()
    {
      hide Inv, LeakFree, QueuesFaithful, QueuesRecalled, EitFaithful, EitRecalled;
      ghost var q, h := o.packets, o.Holds();
      HeadKnown(o);
      ghost var ts0: map<Block, Ts> := map b: Block | b in blocks :: b.ts;
      ghost var owners0, blks := owners, o.packets[0].items;
      QueuesRecall(ts0);
      EitRecall(ts0);
      DropPacketFirst(o, ts0);
      FaithfulAgain(ts0);
      EitFaithfulAgain(ts0, owners0, blks);
      HoldsLess(o, q, h);
      Swapped(owners, owners0, multiset(blks), o.Holds());
    }

    lemma HoldsLess(o: Output, q: seq<Packet<Block>>, h: multiset<Block>)
      requires q != [] && o.packets == q[1..]
      requires h == multiset(Flat(q)) + (if o.eit == null then multiset{} else multiset{o.eit})
      ensures h == o.Holds() + multiset(q[0].items)
    {
      assert multiset(Flat(q)) == multiset(q[0].items) + multiset(Flat(q[1..]));
    }

    lemma Swapped(now: multiset<Block>, before: multiset<Block>, gone: multiset<Block>, rest: multiset<Block>)
      requires now + gone == before
      ensures now + (rest + gone) == before + rest
    {
      assert now + (rest + gone) == now + gone + rest;
    }

    /** The EIT packet is freed, not pooled. */
    method FreeEit(o: Output)
      requires Inv() && Faithful() && o in all && o.eit != null
      modifies `blocks, `owners, `held, `bags, o`eit, o`carry
      ensures Inv() && Faithful() && o.eit == null && held == old(held)
      ensures owners == old(owners) - multiset{old(o.eit)} && blocks == old(blocks) - {old(o.eit)}
      ensures old(LeakFree()) ==> LeakFree()
    {
      hide Inv, Faithful, LeakFree;
      var b := TakeEit(o);
      FreeHeld(b);
    }

    ghost method FreeHeld(b: Block)
      requires Inv() && Faithful() && owners[b] == 1 && held[b] >= 1
      modifies `blocks, `owners, `held
      ensures Inv() && Faithful()
      ensures owners == old(owners) - multiset{b} && held == old(held) - multiset{b} && blocks == old(blocks) - {b}
      ensures old(LeakFree()) ==> LeakFree()
    {
      hide Inv, QueuesFaithful, QueuesRecalled, EitFaithful, EitRecalled;
      ghost var ts0: map<Block, Ts> := map c: Block | c in blocks :: c.ts;
      ghost var owners0 := owners;
      QueuesRecall(ts0);
      EitRecall(ts0);
      Readded(owners0, b);
      ForgetHeld(b);
      assert multiset([b]) == multiset{b};
      FaithfulAgain(ts0);
      EitFaithfulAgain(ts0, owners0, [b]);
    }

    ghost method ForgetHeld(b: Block)
      requires Inv() && owners[b] == 1 && held[b] >= 1
      modifies `blocks, `owners, `held
      ensures Inv()
      ensures owners == old(owners) - multiset{b} && held == old(held) - multiset{b} && blocks == old(blocks) - {b}
    {
      hide Pooling, Output.Ok, Output.Holds, Sum, NoDup;
      ghost var owners0 := owners;
      Forget(b);
      Less(b, owners0, Sum(bags));
      held := held - multiset{b};
    }

    ghost method Forget(b: Block)
      requires Pooling() && owners[b] == 1
      modifies `blocks, `owners
      ensures Pooling() && owners == old(owners) - multiset{b} && blocks == old(blocks) - {b}
    {
      OwnedKnown(b);
      owners, blocks := owners - multiset{b}, blocks - {b};
    }

    /** The outer loop of output_Close. */
    method DropAll(o: Output)
      requires Inv() && Faithful() && o in all
      modifies `lifo, `blockCount, `blocks, `owners, `bags, o`packets, o`ops, blocks`refcount, blocks`ts
      ensures Inv() && Faithful() && blocks <= old(blocks)
      ensures o.packets == [] && owners + old(o.Holds()) == old(owners) + o.Holds()
      ensures old(LeakFree()) ==> LeakFree()
    {
      hide Inv, Faithful, LeakFree, Output.Holds;
      ghost var owners0, h0 := owners, o.Holds();
      while o.packets != []
        invariant Inv() && Faithful() && blocks <= old(blocks)
        invariant owners + h0 == owners0 + o.Holds()
        invariant old(LeakFree()) ==> LeakFree()
        decreases |o.packets|
      {
        HeadKnown(o);
        ghost var now, h := owners, o.Holds();
        DropPacketKept(o);
        Chained(owners, now, owners0, o.Holds(), h, h0);
      }
    }

    method DropEit(o: Output)
      requires Inv() && Faithful() && o in all && o.packets == []
      modifies `blocks, `owners, `held, `bags, o`eit, o`carry
      ensures Inv() && Faithful() && held == old(held) && blocks <= old(blocks)
      ensures o.eit == null && o.carry == None && owners + old(o.Holds()) == old(owners)
      ensures old(LeakFree()) ==> LeakFree()
    {
      hide Inv, Faithful, LeakFree, Output.Holds;
      o.HoldsEit();
      if o.eit != null {
        KnownEit(o);
        ghost var now, b := owners, o.eit;
        FreeEit(o);
        Readded(now, b);
      }
      NoCarry(o);
    }

    lemma NoCarry(o: Output)
      requires Faithful() && o in all && o.eit == null
      ensures o.carry == None
    {
      var k :| 0 <= k < |all| && all[k] == o;
      assert EitOk(all[k]);
    }

    /** output_Close: every reference the output had is dropped, and it takes part in nothing any more.
        Its history starts anew. */
    method Close(o: Output)
      requires Inv() && Faithful() && o in all
      modifies `lifo, `blockCount, `blocks, `owners, `held, `bags
      modifies o`packets, o`ops, o`eit, o`carry, o`valid, o`wires, o`seqnum0, blocks`refcount, blocks`ts
      ensures Inv() && Faithful() && held == old(held) && o.Spelled()
      ensures !o.valid && o.packets == [] && o.eit == null && o.carry == None && o.ops == [] && o.wires == []
      ensures owners + old(o.Holds()) == old(owners) && blocks <= old(blocks)
      ensures old(LeakFree()) ==> LeakFree()
      ensures old(Armed()) ==> Armed()
    {
      hide Inv, Faithful, LeakFree, Output.Holds, Output.Spelled;
      ghost var owners0, h0 := owners, o.Holds();
      DropAll(o);
      ghost var now, h := owners, o.Holds();
      DropEit(o);
      Chained(owners, now, owners0, multiset{}, h, h0);
      Retire(o);
    }

    lemma Chained(a: multiset<Block>, b: multiset<Block>, c: multiset<Block>, ha: multiset<Block>, hb: multiset<Block>, hc: multiset<Block>)
      requires a + hb == b + ha && b + hc == c + hb
      ensures a + hc == c + ha
    {
      forall x ensures (a + hc)[x] == (c + ha)[x] {
        assert (a + hb)[x] == (b + ha)[x] && (b + hc)[x] == (c + hb)[x];
      }
    }

    method Retire(o: Output)
      requires Inv() && Faithful() && o in all && o.packets == [] && o.eit == null
      modifies o`valid, o`ops, o`wires, o`seqnum0
      ensures Inv() && Faithful() && !o.valid && o.ops == [] && o.wires == [] && o.Spelled()
    {
      hide Pooling, Linked, EitFaithful, Output.Ok, Output.Spelled, SameContent, OnceEach, Run;
      InvOk(o);
      Roomy(o);
      o.wires, o.seqnum0 := [], o.seqnum;
      o.valid := false;
      o.ops := [];
      Empty(o);
    }

    /** An output that has nothing queued starts a new history. */
    method Renew(o: Output, seqnum: Seq16)
      requires Inv() && Faithful() && o in all && o.packets == []
      modifies o`seqnum, o`ops, o`wires, o`seqnum0
      ensures Inv() && Faithful() && o.seqnum == seqnum && o.ops == [] && o.wires == [] && o.Spelled()
    {
      hide Pooling, Linked, EitFaithful, Output.Ok, Output.Spelled, SameContent, OnceEach, Run;
      InvOk(o);
      Roomy(o);
      o.seqnum := seqnum;
      o.wires, o.ops, o.seqnum0 := [], [], seqnum;
      Empty(o);
    }

    lemma Roomy(o: Output)
      requires o.Ok()
      ensures TS_SIZE + RTP_HEADER_SIZE <= o.mtu
    {
    }

    lemma Empty(o: Output)
      requires TS_SIZE + RTP_HEADER_SIZE <= o.mtu && o.packets == [] && o.ops == [] && o.wires == [] && o.seqnum0 == o.seqnum
      ensures o.Ok() && o.Spelled() && SameContent(o.packets, o.Log().queue, blocks) && OnceEach(o.packets)
    {
    }

    /** i_refcount--, with no check for zero. */
    method Decrement(b: Block)
      requires Pooling() && owners[b] == 1
      modifies `owners, b`refcount
      ensures Pooling() && owners == old(owners) - multiset{b} && b in blocks && b !in lifo
    {
      OwnedKnown(b);
      b.refcount := b.refcount - 1;
      owners := owners - multiset{b};
    }

    method GiveUp(b: Block)
      requires Inv() && owners[b] == 1 && held[b] >= 1
      modifies `owners, `held, b`refcount
      ensures Inv() && owners == old(owners) - multiset{b} && held == old(held) - multiset{b}
      ensures b in blocks && b !in lifo
    {
      hide Pooling, Output.Ok, Output.Holds, Sum, NoDup;
      ghost var owners0 := owners;
      Decrement(b);
      Less(b, owners0, Sum(bags));
      held := held - multiset{b};
    }

    lemma OwnedKnown(b: Block)
      requires Pooling() && b in owners
      ensures b in blocks && b !in lifo
    {
    }
  }

  /** An output before a TS packet comes: what was done to it, the EIT packet it carries, and whether
      that is due. */
  datatype Was = Was(ops: seq<Op>, carry: Option<Ts>, due: bool)

  /** What an output carries after a TS packet, which it may have been registered for. */
  function CarryAfter(was: Was, registered: bool): Option<Ts> {
    if registered && was.due then None else was.carry
  }

  /** TS packets put one after the other. */
  function PutOps(out: seq<Ts>, dts: int): seq<Op> {
    if out == [] then [] else PutOps(out[..|out| - 1], dts) + [PacketQueue.Put(Item(dts, out[|out| - 1]))]
  }

  lemma OnePutOp(ts: Ts, dts: int)
    ensures PutOps([ts], dts) == [PacketQueue.Put(Item(dts, ts))]
  {
    assert [ts][..0] == [];
  }

  ghost predicate Recalled(q: seq<Packet<Block>>, s: seq<Packet<Item>>, ts: map<Block, Ts>) {
    && SameShape(q, s)
    && forall k, j :: 0 <= k < |q| && 0 <= j < |q[k].items| ==>
         q[k].items[j] in ts && ts[q[k].items[j]] == s[k].items[j].ts
  }

  lemma Recall(q: seq<Packet<Block>>, s: seq<Packet<Item>>, blocks: set<Block>, ts: map<Block, Ts>)
    requires SameContent(q, s, blocks)
    requires forall b :: b in blocks ==> b in ts && ts[b] == b.ts
    ensures Recalled(q, s, ts)
  {
  }

  lemma RecalledFirst(q: seq<Packet<Block>>, s: seq<Packet<Item>>, ts: map<Block, Ts>)
    requires Recalled(q, s, ts) && q != []
    ensures s != [] && Recalled(q[1..], s[1..], ts) && |q[0].items| == |s[0].items|
    ensures forall j :: 0 <= j < |q[0].items| ==> q[0].items[j] in ts && ts[q[0].items[j]] == s[0].items[j].ts
  {
  }

  lemma SentAsAnnounced(tss: seq<Ts>, blks: seq<Block>, orig: map<Block, Ts>, items: seq<Item>, remapping: bool, np: seq<int>)
    requires TableOk(np) && Sent(tss, blks, orig, remapping, np) && |blks| == |items|
    requires forall j :: 0 <= j < |blks| ==> blks[j] in orig && orig[blks[j]] == items[j].ts
    requires remapping ==> NoDup(blks)
    ensures tss == Announced(items, remapping, np)
  {
    forall j | 0 <= j < |tss| ensures tss[j] == Announced(items, remapping, np)[j] {
      if remapping {
        OnceCount(blks, blks[j]);
        assert Hops(np, 1, items[j].ts.pid) == Renumber(np, Hops(np, 0, items[j].ts.pid));
      }
    }
  }

  lemma {:induction false} OnceCount(blks: seq<Block>, b: Block)
    requires NoDup(blks) && b in blks
    ensures multiset(blks)[b] == 1
  {
    if blks[0] == b {
      assert blks == [b] + blks[1..];
      assert b !in blks[1..];
    } else {
      assert blks == [blks[0]] + blks[1..];
      OnceCount(blks[1..], b);
    }
  }

  /** The TS packets as the emitted PMT announces them. */
  ghost function Announced(items: seq<Item>, remapping: bool, np: seq<int>): (tss: seq<Ts>)
    requires TableOk(np)
    ensures |tss| == |items|
    ensures forall i :: 0 <= i < |items| ==>
      tss[i] == if remapping then items[i].ts.(pid := Renumber(np, items[i].ts.pid)) else items[i].ts
  {
    if items == [] then []
    else [if remapping then items[0].ts.(pid := Renumber(np, items[0].ts.pid)) else items[0].ts]
         + Announced(items[1..], remapping, np)
  }

  /** After the first loop: `now` is what the blocks hold, and tmp_pid tells how to undo the last
      renumbering. */
  ghost predicate Marked(blks: seq<Block>, orig: map<Block, Ts>, now: map<Block, Ts>, remapping: bool, newpids: seq<int>)
    requires TableOk(newpids)
    reads blks`tmpPid
  {
    forall b :: b in blks ==>
      && b in orig && b in now
      && now[b] == Hopped(orig[b], remapping, newpids, multiset(blks)[b])
      && (remapping ==> b.tmpPid == Saved(newpids, multiset(blks)[b], orig[b].pid))
  }

  /** The TS packets in a datagram: each block renumbered as often as it occurs in the packet, since
      all its occurrences show the block as it is in the end. */
  ghost predicate Sent(tss: seq<Ts>, blks: seq<Block>, orig: map<Block, Ts>, remapping: bool, newpids: seq<int>)
    requires TableOk(newpids)
  {
    && |tss| == |blks|
    && forall i :: 0 <= i < |blks| ==>
         blks[i] in orig && tss[i] == Hopped(orig[blks[i]], remapping, newpids, multiset(blks)[blks[i]])
  }

  function Gathered(v: Iov, udpLength: int, seqnum: int, timestamp: int): Wire
    reads if v.TsIov? then {v.block} else {}
  {
    match v
    case RawIov => RawHeader(udpLength)
    case RtpIov => RtpHeader(seqnum, timestamp)
    case TsIov(b) => TsData(b.ts)
    case PadIov => Padding
  }

  /** What the headers of the list turn into. */
  function GatheredHead(head: seq<Iov>, udpLength: int, seqnum: int, timestamp: int): (ws: seq<Wire>)
    requires forall i :: 0 <= i < |head| ==> !head[i].TsIov?
    ensures |ws| == |head| && forall i :: 0 <= i < |ws| ==> ws[i] == Gathered(head[i], udpLength, seqnum, timestamp)
  {
    if head == [] then [] else [Gathered(head[0], udpLength, seqnum, timestamp)] + GatheredHead(head[1..], udpLength, seqnum, timestamp)
  }

  lemma HeaderImage(raw: bool, udp: bool, udpLength: int, seqnum: int, clock: int, room: int)
    requires raw ==> udpLength == (UDP_HEADER_SIZE + (if udp then 0 else RTP_HEADER_SIZE) + room * TS_SIZE) % 0x1_0000
    ensures var head := (if raw then [RawIov] else []) + (if udp then [] else [RtpIov]);
      GatheredHead(head, udpLength, seqnum, clock * 9 / 100 % 0x1_0000_0000) == Headers(raw, udp, seqnum, clock, room)
  {
  }

  lemma GatherImage(head: seq<Iov>, ts: seq<Iov>, pads: seq<Iov>, wire: seq<Wire>, blks: seq<Block>,
                    udpLength: int, seqnum: int, timestamp: int)
    requires forall i :: 0 <= i < |head| ==> !head[i].TsIov?
    requires |ts| == |blks| && forall i :: 0 <= i < |ts| ==> ts[i] == TsIov(blks[i])
    requires forall i :: 0 <= i < |pads| ==> pads[i] == PadIov
    requires |wire| == |head + ts + pads|
    requires forall i :: 0 <= i < |wire| ==> wire[i] == Gathered((head + ts + pads)[i], udpLength, seqnum, timestamp)
    ensures wire == GatheredHead(head, udpLength, seqnum, timestamp) + TsPart(Contents(blks)) + PadPart(|pads|)
  {
    var image := GatheredHead(head, udpLength, seqnum, timestamp) + TsPart(Contents(blks)) + PadPart(|pads|);
    forall i | 0 <= i < |wire| ensures wire[i] == image[i] {
      var v := (head + ts + pads)[i];
      if i < |head| {
        assert v == head[i] && image[i] == GatheredHead(head, udpLength, seqnum, timestamp)[i];
      } else if i < |head| + |ts| {
        assert v == ts[i - |head|] && image[i] == TsPart(Contents(blks))[i - |head|];
      } else {
        assert v == pads[i - |head| - |ts|] && image[i] == PadPart(|pads|)[i - |head| - |ts|];
      }
    }
  }

  function TsPart(tss: seq<Ts>): seq<Wire> {
    seq(|tss|, i requires 0 <= i < |tss| => TsData(tss[i]))
  }

  function PadPart(n: nat): seq<Wire> {
    seq(n, _ => Padding)
  }

  function Contents(blks: seq<Block>): (tss: seq<Ts>)
    reads blks
    ensures |tss| == |blks| && forall i :: 0 <= i < |blks| ==> tss[i] == blks[i].ts
  {
    if blks == [] then [] else [blks[0].ts] + Contents(blks[1..])
  }

  lemma {:induction false} IovConcat(a: seq<Iov>, b: seq<Iov>)
    ensures IovOctets(a + b) == IovOctets(a) + IovOctets(b)
    decreases |b|
  {
    if b == [] {
      assert a + b == a;
    } else {
      assert (a + b)[..|a + b| - 1] == a + b[..|b| - 1];
      IovConcat(a, b[..|b| - 1]);
    }
  }

  lemma {:induction false} IovAllTs(iov: seq<Iov>)
    requires forall i :: 0 <= i < |iov| ==> iov[i].TsIov? || iov[i].PadIov?
    ensures IovOctets(iov) == |iov| * TS_SIZE
  {
    if iov != [] { IovAllTs(iov[..|iov| - 1]); }
  }

  lemma PayloadTotal(head: seq<Iov>, ts: seq<Iov>, pads: seq<Iov>)
    requires head == [] || head == [RtpIov]
    requires forall i :: 0 <= i < |ts| ==> ts[i].TsIov?
    requires forall i :: 0 <= i < |pads| ==> pads[i].PadIov?
    ensures IovOctets(head + ts + pads) == (if head == [] then 0 else RTP_HEADER_SIZE) + (|ts| + |pads|) * TS_SIZE
  {
    assert head + ts + pads == head + (ts + pads);
    IovConcat(head, ts + pads);
    IovAllTs(ts + pads);
    assert head == [RtpIov] ==> head[..0] == [];
  }

  lemma SplitAt(blks: seq<Block>, i: nat)
    requires i < |blks|
    ensures multiset(blks[..i + 1]) == multiset(blks[..i]) + multiset{blks[i]}
    ensures multiset(blks[i..]) == multiset(blks[i + 1..]) + multiset{blks[i]}
  {
    assert blks[..i + 1] == blks[..i] + [blks[i]];
    assert blks[i..] == [blks[i]] + blks[i + 1..];
  }

  lemma SplitEnds(blks: seq<Block>)
    ensures multiset(blks[..0]) == multiset{} == multiset(blks[|blks|..])
    ensures multiset(blks[0..]) == multiset(blks) == multiset(blks[..|blks|])
  {
    assert blks[0..] == blks == blks[..|blks|];
  }

  ghost function Lengths(os: seq<Output>): (lens: seq<int>)
    reads os`packets
    ensures |lens| == |os| && forall i :: 0 <= i < |os| ==> lens[i] == |os[i].packets|
  {
    if os == [] then [] else [|os[0].packets|] + Lengths(os[1..])
  }

  ghost function AllOps(os: seq<Output>): (ops: seq<seq<Op>>)
    reads os`ops
    ensures |ops| == |os| && forall i :: 0 <= i < |os| ==> ops[i] == os[i].ops
  {
    if os == [] then [] else [os[0].ops] + AllOps(os[1..])
  }

  ghost function AllWires(os: seq<Output>): (seen: seq<seq<Dispatch>>)
    reads os`wires
    ensures |seen| == |os| && forall i :: 0 <= i < |os| ==> seen[i] == os[i].wires
  {
    if os == [] then [] else [os[0].wires] + AllWires(os[1..])
  }

  ghost function AllPuts(os: seq<Output>): (puts: seq<seq<Item>>)
    reads os`ops
    ensures |puts| == |os| && forall i :: 0 <= i < |os| ==> puts[i] == Puts(os[i].ops)
  {
    if os == [] then [] else [Puts(os[0].ops)] + AllPuts(os[1..])
  }

  function Total(lens: seq<int>): int {
    if lens == [] then 0 else lens[0] + Total(lens[1..])
  }

  lemma {:induction false} TotalAtMost(a: seq<int>, b: seq<int>)
    requires |a| == |b| && forall i :: 0 <= i < |a| ==> 0 <= a[i] <= b[i]
    ensures 0 <= Total(a) <= Total(b)
  {
    if a != [] { TotalAtMost(a[1..], b[1..]); }
  }

  lemma {:induction false} TotalLess(a: seq<int>, b: seq<int>)
    requires |a| == |b| && forall i :: 0 <= i < |a| ==> 0 <= a[i] <= b[i]
    requires exists i :: 0 <= i < |a| && a[i] < b[i]
    ensures 0 <= Total(a) < Total(b)
  {
    var i :| 0 <= i < |a| && a[i] < b[i];
    TotalAtMost(a[1..], b[1..]);
    if i > 0 {
      assert a[1..][i - 1] < b[1..][i - 1];
      TotalLess(a[1..], b[1..]);
    }
  }

  ghost function Queues(os: seq<Output>): (qs: seq<seq<Packet<Block>>>)
    reads os
    ensures |qs| == |os| && forall i :: 0 <= i < |os| ==> qs[i] == os[i].packets
  {
    if os == [] then [] else [os[0].packets] + Queues(os[1..])
  }

  /** What the last loop of output_Flush starts from. */
  datatype Start = Start(blocks: set<Block>, lifo: seq<Block>, owners: multiset<Block>, ts: map<Block, Ts>)

  lemma Snapshot(blks: seq<Block>)
    ensures Untouched(blks, map b: Block | b in blks :: b.ts)
  {
  }

  ghost predicate Untouched(blks: seq<Block>, orig: map<Block, Ts>)
    reads blks`ts
  {
    forall b :: b in blks ==> b in orig && b.ts == orig[b]
  }

  ghost predicate Renumbered(blks: seq<Block>, done: multiset<Block>, orig: map<Block, Ts>, newpids: seq<int>)
    reads blks`ts, blks`tmpPid
    requires TableOk(newpids)
  {
    forall b :: b in blks ==>
      && b in orig
      && b.ts == orig[b].(pid := Hops(newpids, done[b], orig[b].pid))
      && (done[b] > 0 ==> b.tmpPid == Saved(newpids, done[b], orig[b].pid))
  }

  ghost predicate Restored(b: Block, remapping: bool, ts0: Ts)
    reads b`ts, b`tmpPid
  {
    if remapping && b.tmpPid != UNUSED_PID
    then IsPid(b.tmpPid) && b.ts == ts0.(pid := b.tmpPid)
    else b.ts == ts0
  }
}
