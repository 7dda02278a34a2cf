/** How TS packets are grouped into datagrams, as a function on queue values.

    An output queues packets; each packet gathers up to `room` TS packets.  The operations below are
    what output_Put and output_Flush do to the queue, and `Run` replays a whole history of them. */
module PacketQueue {
  import opened Common

  datatype Packet<+T> = Packet(dts: int, items: seq<T>)

  /** A TS packet with the timestamp it had when it was handed to the output. */
  datatype Item = Item(dts: int, ts: Ts)

  datatype Op = Put(item: Item) | Flush

  datatype Log = Log(sent: seq<Packet<Item>>, queue: seq<Packet<Item>>)

  /** The next TS packet goes into the last queued packet, not into a new one. */
  predicate Joins<T>(q: seq<Packet<T>>, dts: int, room: int, retention: int) {
    q != [] && |q[|q| - 1].items| < room && q[|q| - 1].dts + retention > dts
  }

  function Enqueue<T>(q: seq<Packet<T>>, x: T, dts: int, pcr: bool, room: int, retention: int): seq<Packet<T>> {
    if Joins(q, dts, room, retention) then
      var last := q[|q| - 1];
      q[..|q| - 1] + [Packet(if pcr then dts else last.dts, last.items + [x])]
    else
      q + [Packet(dts, [x])]
  }

  function Step(s: Log, op: Op, room: int, retention: int): Log {
    match op
    case Put(item) =>
      s.(queue := Enqueue(s.queue, item, item.dts, item.ts.pcr, room, retention))
    case Flush =>
      if s.queue == [] then s else Log(s.sent + [s.queue[0]], s.queue[1..])
  }

  function Run(ops: seq<Op>, room: int, retention: int): Log {
    if ops == [] then Log([], [])
    else Step(Run(ops[..|ops| - 1], room, retention), ops[|ops| - 1], room, retention)
  }

  lemma RunAppend(ops: seq<Op>, op: Op, room: int, retention: int)
    ensures Run(ops + [op], room, retention) == Step(Run(ops, room, retention), op, room, retention)
  {
    assert (ops + [op])[..|ops|] == ops;
  }

  function Flat<T>(q: seq<Packet<T>>): seq<T> {
    if q == [] then [] else q[0].items + Flat(q[1..])
  }

  function Puts(ops: seq<Op>): seq<Item> {
    if ops == [] then []
    else Puts(ops[..|ops| - 1]) +
         (match ops[|ops| - 1] case Put(item) => [item] case Flush => [])
  }

  lemma PutsFlush(ops: seq<Op>)
    ensures Puts(ops + [Flush]) == Puts(ops)
  {
    assert (ops + [Flush])[..|ops|] == ops;
  }

  // ----- two queues of the same shape -----

  predicate SameShape<T, U>(q: seq<Packet<T>>, s: seq<Packet<U>>) {
    && |q| == |s|
    && forall k :: 0 <= k < |q| ==> q[k].dts == s[k].dts && |q[k].items| == |s[k].items|
  }

  lemma EnqueueShape<T, U>(q: seq<Packet<T>>, s: seq<Packet<U>>, x: T, y: U, dts: int, pcr: bool, room: int, retention: int)
    requires SameShape(q, s)
    ensures SameShape(Enqueue(q, x, dts, pcr, room, retention), Enqueue(s, y, dts, pcr, room, retention))
  {
  }

  // ----- first in, first out -----

  lemma {:induction false} FlatAppend<T>(a: seq<Packet<T>>, b: seq<Packet<T>>)
    ensures Flat(a + b) == Flat(a) + Flat(b)
  {
    if a == [] {
      assert a + b == b;
    } else {
      calc {
        Flat(a + b);
        { assert (a + b)[0] == a[0] && (a + b)[1..] == a[1..] + b; }
        a[0].items + Flat(a[1..] + b);
        { FlatAppend(a[1..], b); }
        a[0].items + (Flat(a[1..]) + Flat(b));
        { Assoc(a[0].items, Flat(a[1..]), Flat(b)); }
        Flat(a) + Flat(b);
      }
    }
  }

  lemma Assoc<T>(a: seq<T>, b: seq<T>, c: seq<T>)
    ensures a + (b + c) == (a + b) + c
  {
  }

  lemma {:induction false} FlatHas<T>(q: seq<Packet<T>>, k: nat, j: nat)
    requires k < |q| && j < |q[k].items|
    ensures q[k].items[j] in Flat(q)
  {
    if k > 0 { FlatHas(q[1..], k - 1, j); }
  }

  lemma EnqueueFlat<T>(q: seq<Packet<T>>, x: T, dts: int, pcr: bool, room: int, retention: int)
    ensures Flat(Enqueue(q, x, dts, pcr, room, retention)) == Flat(q) + [x]
  {
    if Joins(q, dts, room, retention) {
      var init, last := q[..|q| - 1], q[|q| - 1];
      var last' := Packet(if pcr then dts else last.dts, last.items + [x]);
      assert q == init + [last];
      FlatAppend(init, [last]);
      FlatAppend(init, [last']);
    } else {
      FlatAppend(q, [Packet(dts, [x])]);
    }
  }

  /** Whatever the interleaving of puts and flushes, what has left followed by what still waits is
      exactly what was put, in the order it was put. */
  lemma {:induction false} FirstInFirstOut(ops: seq<Op>, room: int, retention: int)
    ensures var s := Run(ops, room, retention); Flat(s.sent) + Flat(s.queue) == Puts(ops)
  {
    if ops != [] {
      var init, op := ops[..|ops| - 1], ops[|ops| - 1];
      FirstInFirstOut(init, room, retention);
      var s := Run(init, room, retention);
      match op
      case Put(item) =>
        EnqueueFlat(s.queue, item, item.dts, item.ts.pcr, room, retention);
      case Flush =>
        if s.queue != [] {
          FlatAppend(s.sent, [s.queue[0]]);
        }
    }
  }

  // ----- shape of the packets -----

  /** The TS packet a packet's timestamp comes from: the last one with a PCR, or else the first. */
  function Anchor(items: seq<Item>): (a: int)
    requires items != []
    ensures 0 <= a < |items|
  {
    if |items| == 1 || items[|items| - 1].ts.pcr then |items| - 1
    else Anchor(items[..|items| - 1])
  }

  predicate WellStamped(p: Packet<Item>, room: int, retention: int) {
    && 1 <= |p.items| <= room
    && p.dts == p.items[Anchor(p.items)].dts
    && forall j :: Anchor(p.items) < j < |p.items| ==> p.items[j].dts < p.dts + retention
  }

  lemma AnchorIsLastPcr(items: seq<Item>)
    requires items != []
    ensures forall j :: Anchor(items) < j < |items| ==> !items[j].ts.pcr
    ensures items[Anchor(items)].ts.pcr || Anchor(items) == 0
  {
  }

  lemma JoinStamped(p: Packet<Item>, item: Item, room: int, retention: int)
    requires WellStamped(p, room, retention) && |p.items| < room && p.dts + retention > item.dts
    ensures WellStamped(Packet(if item.ts.pcr then item.dts else p.dts, p.items + [item]), room, retention)
  {
    var items := p.items + [item];
    assert items[..|items| - 1] == p.items;
    assert Anchor(items) == if item.ts.pcr then |items| - 1 else Anchor(p.items);
  }

  lemma EnqueueStamped(q: seq<Packet<Item>>, item: Item, room: int, retention: int)
    requires 1 <= room
    requires forall p :: p in q ==> WellStamped(p, room, retention)
    ensures forall p :: p in Enqueue(q, item, item.dts, item.ts.pcr, room, retention) ==> WellStamped(p, room, retention)
  {
    if Joins(q, item.dts, room, retention) {
      JoinStamped(q[|q| - 1], item, room, retention);
    } else {
      assert Anchor([item]) == 0;
    }
  }

  /** Every packet that was ever queued holds between one and `room` TS packets, carries the
      timestamp of its anchor, and everything behind the anchor is less than the retention away. */
  lemma {:induction false} PacketsWellStamped(ops: seq<Op>, room: int, retention: int)
    requires 1 <= room
    ensures var s := Run(ops, room, retention);
      && (forall p :: p in s.sent ==> WellStamped(p, room, retention))
      && (forall p :: p in s.queue ==> WellStamped(p, room, retention))
  {
    if ops != [] {
      var init := ops[..|ops| - 1];
      PacketsWellStamped(init, room, retention);
      var s := Run(init, room, retention);
      match ops[|ops| - 1]
      case Put(item) => EnqueueStamped(s.queue, item, room, retention);
      case Flush =>
    }
  }

  // ----- order of the timestamps -----

  predicate Ascending(items: seq<Item>) {
    forall i, j :: 0 <= i < j < |items| ==> items[i].dts <= items[j].dts
  }

  predicate Sorted<T>(q: seq<Packet<T>>) {
    forall i, j :: 0 <= i < j < |q| ==> q[i].dts <= q[j].dts
  }

  predicate SortedBelow(q: seq<Packet<Item>>, dts: int) {
    Sorted(q) && forall i :: 0 <= i < |q| ==> q[i].dts <= dts
  }

  lemma EnqueueSortedBelow(sent: seq<Packet<Item>>, q: seq<Packet<Item>>, item: Item, room: int, retention: int)
    requires SortedBelow(sent + q, item.dts)
    ensures SortedBelow(sent + Enqueue(q, item, item.dts, item.ts.pcr, room, retention), item.dts)
  {
    var q' := Enqueue(q, item, item.dts, item.ts.pcr, room, retention);
    var all, all' := sent + q, sent + q';
    if Joins(q, item.dts, room, retention) {
      assert all[|all| - 1] == q[|q| - 1];
      assert all' == all[..|all| - 1] + [q'[|q'| - 1]];
    } else {
      assert all' == all + [q'[|q'| - 1]];
    }
  }

  lemma {:induction false} RunSortedBelow(ops: seq<Op>, room: int, retention: int, dts: int)
    requires Ascending(Puts(ops))
    requires forall i :: 0 <= i < |Puts(ops)| ==> Puts(ops)[i].dts <= dts
    ensures var s := Run(ops, room, retention); SortedBelow(s.sent + s.queue, dts)
  {
    if ops != [] {
      var init := ops[..|ops| - 1];
      var s, s' := Run(init, room, retention), Run(ops, room, retention);
      match ops[|ops| - 1]
      case Put(item) =>
        assert Puts(ops) == Puts(init) + [item];
        assert Puts(ops)[|Puts(init)|] == item;
        assert forall i :: 0 <= i < |Puts(init)| ==> Puts(init)[i] == Puts(ops)[i];
        RunSortedBelow(init, room, retention, item.dts);
        EnqueueSortedBelow(s.sent, s.queue, item, room, retention);
      case Flush =>
        assert Puts(ops) == Puts(init);
        RunSortedBelow(init, room, retention, dts);
        assert s'.sent + s'.queue == s.sent + s.queue;
    }
  }

  /** With non-decreasing timestamps, packets leave and wait in timestamp order. */
  lemma QueueSorted(ops: seq<Op>, room: int, retention: int)
    requires Ascending(Puts(ops))
    ensures var s := Run(ops, room, retention); Sorted(s.sent + s.queue) && Sorted(s.queue)
  {
    var items := Puts(ops);
    var latest := if items == [] then 0 else items[|items| - 1].dts;
    RunSortedBelow(ops, room, retention, latest);
    var s := Run(ops, room, retention);
    forall i, j | 0 <= i < j < |s.queue| ensures s.queue[i].dts <= s.queue[j].dts {
      assert (s.sent + s.queue)[|s.sent| + i] == s.queue[i];
      assert (s.sent + s.queue)[|s.sent| + j] == s.queue[j];
    }
  }

  // ----- the retention promise -----

  /** The README promises that the first and the last TS packet of a datagram are at most the
      retention apart. */
  predicate WithinRetention(p: Packet<Item>, retention: int)
    requires p.items != []
  {
    p.items[|p.items| - 1].dts - p.items[0].dts <= retention
  }

  /** Each TS packet that joins is less than the retention behind the anchor, so the spread grows by
      at most retention - 1 with every one of them. */
  predicate SpreadBounded(p: Packet<Item>, retention: int) {
    && p.items != []
    && p.dts - p.items[0].dts <= (|p.items| - 1) * (retention - 1)
    && p.items[|p.items| - 1].dts - p.items[0].dts <= (|p.items| - 1) * (retention - 1)
  }

  lemma {:induction false} RunSpreadBounded(ops: seq<Op>, room: int, retention: int)
    requires 1 <= retention
    ensures forall p :: p in Run(ops, room, retention).queue ==> SpreadBounded(p, retention)
  {
    if ops != [] {
      var init := ops[..|ops| - 1];
      RunSpreadBounded(init, room, retention);
      var q, q' := Run(init, room, retention).queue, Run(ops, room, retention).queue;
      match ops[|ops| - 1]
      case Put(item) =>
        if Joins(q, item.dts, room, retention) {
          var n := |q[|q| - 1].items|;
          assert SpreadBounded(q[|q| - 1], retention);
          assert (n - 1) * (retention - 1) + (retention - 1) == n * (retention - 1);
          assert SpreadBounded(q'[|q'| - 1], retention);
        } else {
          assert SpreadBounded(Packet(item.dts, [item]), retention);
        }
      case Flush =>
    }
  }

  function PcrItem(k: nat, retention: int): Item {
    Item(k * (retention - 1), Ts(100, 0, true, false, 0, []))
  }

  /** A stream of TS packets that all carry a PCR and come retention - 1 apart. */
  function PcrStream(n: nat, retention: int): (ops: seq<Op>)
    ensures |ops| == n
  {
    if n == 0 then [] else PcrStream(n - 1, retention) + [Put(PcrItem(n - 1, retention))]
  }

  lemma {:induction false} PcrStreamFillsOnePacket(n: nat, room: int, retention: int)
    requires 1 <= n <= room && 1 <= retention
    ensures var q := Run(PcrStream(n, retention), room, retention).queue;
      && |q| == 1 && |q[0].items| == n
      && q[0].dts == q[0].items[n - 1].dts == (n - 1) * (retention - 1)
      && q[0].items[0].dts == 0
  {
    var ops := PcrStream(n, retention);
    assert ops[..n - 1] == PcrStream(n - 1, retention);
    if n == 1 {
      assert Run(ops[..0], room, retention) == Log([], []);
      assert (n - 1) * (retention - 1) == 0;
    } else {
      PcrStreamFillsOnePacket(n - 1, room, retention);
      assert (n - 1) * (retention - 1) == (n - 2) * (retention - 1) + (retention - 1);
    }
  }

  /** So the promise does not hold in general: it holds on every run exactly when the number of TS
      packets per datagram and the retention are small enough.  With the defaults (7 and 40000
      microseconds) they are not: a PCR moves the packet's timestamp on, and the retention is
      measured from there. */
  lemma RetentionPromise(room: int, retention: int)
    requires 1 <= room && 1 <= retention
    ensures (forall ops, p :: p in Run(ops, room, retention).queue ==> p.items != [] && WithinRetention(p, retention))
       <==> (room - 1) * (retention - 1) <= retention
  {
    if (room - 1) * (retention - 1) <= retention {
      forall ops, p | p in Run(ops, room, retention).queue ensures p.items != [] && WithinRetention(p, retention) {
        RunSpreadBounded(ops, room, retention);
        PacketsWellStamped(ops, room, retention);
        assert WellStamped(p, room, retention) && SpreadBounded(p, retention);
        MulMonotone(|p.items| - 1, room - 1, retention - 1);
      }
    } else {
      var ops := PcrStream(room, retention);
      PcrStreamFillsOnePacket(room, room, retention);
      assert Run(ops, room, retention).queue[0] in Run(ops, room, retention).queue;
    }
  }

  lemma MulMonotone(a: int, b: int, c: int)
    requires a <= b && 0 <= c
    ensures a * c <= b * c
  {
    assert (b - a) * c >= 0;
  }
}
