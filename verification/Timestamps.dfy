/** Timestamps for the TS packets of a read: the demultiplexer spreads them evenly between the time of
    the last read and now. */
module Timestamps {
  import opened Common
  import opened Outputs

  const NEVER := -1

  /** Division of C, toward zero. */
  function Div(a: int, b: int): int
    requires b > 0
  {
    if a >= 0 then a / b else -(-a / b)
  }

  function Duration(last: int, wall: int): int {
    if last == NEVER then 0 else wall - last
  }

  /** The timestamp of TS packet k of n. */
  function Stamp(last: int, wall: int, n: nat, k: nat): int
    requires k < n
  {
    wall - Div(Duration(last, wall) * (n - 1 - k), n)
  }

  function Stamps(last: int, wall: int, n: nat): (s: seq<int>)
    ensures |s| == n && forall k :: 0 <= k < n ==> s[k] == Stamp(last, wall, n, k)
  {
    seq(n, k requires 0 <= k < n => Stamp(last, wall, n, k))
  }

  class Stamper {
    var lastDts: int
    var wallclock: int

    constructor (now: int)
      ensures lastDts == NEVER && wallclock == now
    {
      lastDts, wallclock := NEVER, now;
    }

    /** SetDTS */
    method SetDts(list: seq<Block>)
      requires NoDup(list)
      modifies `lastDts, list`dts
      ensures lastDts == wallclock
      ensures forall k :: 0 <= k < |list| ==> list[k].dts == Stamps(old(lastDts), wallclock, |list|)[k]
      ensures old(lastDts) == -1 ==> forall k :: 0 <= k < |list| ==> list[k].dts == wallclock
    {
      FirstAtOnce(wallclock, |list|);
      hide Div, Stamp;
      var count := 0;
      while count < |list|
        invariant 0 <= count <= |list|
      {
        count := count + 1;
      }
      var duration;
      if lastDts == -1 {
        duration := 0;
      } else {
        duration := wallclock - lastDts;
      }
      var i := count - 1;
      var k := 0;
      while k < |list|
        invariant 0 <= k <= |list| && i == count - 1 - k && lastDts == old(lastDts)
        invariant forall j :: 0 <= j < k ==> list[j].dts == Stamp(lastDts, wallclock, count, j)
      {
        StampMeans(lastDts, wallclock, count, k, i);
        list[k].dts := wallclock - Div(duration * i, count);
        i := i - 1;
        k := k + 1;
      }
      lastDts := wallclock;
    }
  }

  lemma FirstAtOnce(wall: int, n: nat)
    ensures forall k :: 0 <= k < n ==> Stamp(-1, wall, n, k) == wall
  {
    forall k | 0 <= k < n ensures Stamp(-1, wall, n, k) == wall {
      StampMeans(-1, wall, n, k, n - 1 - k);
    }
  }

  lemma StampMeans(last: int, wall: int, n: nat, k: nat, i: int)
    requires k < n && i == n - 1 - k
    ensures Stamp(last, wall, n, k) == wall - Div(Duration(last, wall) * i, n)
  {
  }

  // ----- what the timestamps are like -----

  lemma Quotient(v: int, p: int, q: int, r: int)
    requires p > 0 && v == q * p + r && 0 <= r < p
    ensures v / p == q
  {
    var d, s := v / p, v % p;
    assert v == p * d + s;
    assert (q - d) * p == s - r;
    if q - d >= 1 {
      Product(q - d - 1, p);
    } else if q - d <= -1 {
      Product(d - q - 1, p);
    }
  }

  lemma Product(a: int, b: int)
    requires 0 <= a && 0 <= b
    ensures 0 <= a * b
  {
  }

  /** One step adds the quotient of d, or one more. */
  lemma StepDiv(x: int, d: int, n: int)
    requires n > 0 && 0 <= x && 0 <= d
    ensures d / n <= (x + d) / n - x / n <= d / n + (if d % n == 0 then 0 else 1)
  {
    var q, r, s := d / n, d % n, x % n;
    assert d == n * q + r && x == n * (x / n) + s;
    if r + s < n {
      assert x + d == (q + x / n) * n + (r + s);
      Quotient(x + d, n, q + x / n, r + s);
    } else {
      assert x + d == (q + x / n + 1) * n + (r + s - n);
      Quotient(x + d, n, q + x / n + 1, r + s - n);
    }
  }

  lemma Times(d: int, i: int)
    ensures d * (i + 1) == d * i + d
  {
  }

  /** Between two TS packets of a batch lies the n-th part of the time since the last read, rounded down
      or up. */
  lemma GapsEven(last: int, wall: int, n: nat, k: nat)
    requires k + 1 < n && (last == NEVER || last <= wall)
    ensures var d, gap := if last == -1 then 0 else wall - last, Stamp(last, wall, n, k + 1) - Stamp(last, wall, n, k);
      0 <= d / n <= gap <= d / n + (if d % n == 0 then 0 else 1)
  {
    hide Stamp;
    Gap(last, wall, n, k);
  }

  lemma Gap(last: int, wall: int, n: nat, k: nat)
    requires k + 1 < n && (last == NEVER || last <= wall)
    ensures var d, gap := Duration(last, wall), Stamp(last, wall, n, k + 1) - Stamp(last, wall, n, k);
      0 <= d / n <= gap <= d / n + (if d % n == 0 then 0 else 1)
  {
    hide Duration;
    var d := Duration(last, wall);
    DurationNotNegative(last, wall);
    StampIs(last, wall, n, k, n - 1 - k);
    StampIs(last, wall, n, k + 1, n - 2 - k);
    hide Stamp;
    var i := n - 2 - k;
    Times(d, i);
    Product(d, i);
    StepDiv(d * i, d, n);
    NotNegative(d, n);
  }

  lemma DurationNotNegative(last: int, wall: int)
    requires last == NEVER || last <= wall
    ensures 0 <= Duration(last, wall)
  {
  }

  lemma NotNegative(d: int, n: int)
    requires 0 <= d && 0 < n
    ensures 0 <= d / n
  {
  }

  /** On a clock that does not go back, the division rounds down. */
  lemma StampIs(last: int, wall: int, n: nat, k: nat, i: nat)
    requires k < n && i == n - 1 - k && (last == NEVER || last <= wall)
    ensures Stamp(last, wall, n, k) == wall - Duration(last, wall) * i / n
  {
    Product(Duration(last, wall), i);
  }

  lemma {:induction false} StampsAscend(last: int, wall: int, n: nat, i: nat, j: nat)
    requires i <= j < n && (last == NEVER || last <= wall)
    ensures Stamp(last, wall, n, i) <= Stamp(last, wall, n, j)
    decreases j - i
  {
    hide Stamp;
    if i < j {
      Gap(last, wall, n, i);
      StampsAscend(last, wall, n, i + 1, j);
    }
  }

  /** The last TS packet of a batch is stamped with the time of the read, and if the clock went on, even
      the first one comes after the last read. */
  lemma BatchWithin(last: int, wall: int, n: nat)
    requires n > 0 && (last == NEVER || last <= wall)
    ensures Stamp(last, wall, n, n - 1) == wall
    ensures last != NEVER ==> last <= Stamp(last, wall, n, 0)
    ensures last != NEVER && last < wall ==> last < Stamp(last, wall, n, 0)
  {
    var d := Duration(last, wall);
    StampIs(last, wall, n, n - 1, 0);
    StampIs(last, wall, n, 0, n - 1);
    hide Stamp;
    Times(d, n - 1);
    NotAbove(d * (n - 1), n, d);
    if d > 0 {
      Below(d * (n - 1), n, d);
    }
  }

  lemma Below(v: int, n: int, d: int)
    requires 0 < n && v < d * n
    ensures v / n < d
  {
    assert v == n * (v / n) + v % n;
    assert (v / n - d) * n == n * (v / n) - d * n;
    if v / n >= d {
      Product(v / n - d, n);
    }
  }

  lemma NotAbove(v: int, n: int, d: int)
    requires 0 < n && v <= d * n
    ensures v / n <= d
  {
    assert v < d * n + n == (d + 1) * n;
    Below(v, n, d + 1);
  }

  datatype Batch = Batch(wall: int, count: nat)

  function LastOf(batches: seq<Batch>): int {
    if batches == [] then NEVER else batches[|batches| - 1].wall
  }

  /** The timestamps of all reads. */
  function AllStamps(batches: seq<Batch>): seq<int> {
    if batches == [] then []
    else
      var init, b := batches[..|batches| - 1], batches[|batches| - 1];
      AllStamps(init) + Stamps(LastOf(init), b.wall, b.count)
  }

  /** The clock does not go backwards; it counts from zero. */
  predicate Monotone(batches: seq<Batch>) {
    forall i :: 0 <= i < |batches| ==> 0 <= batches[i].wall && (i > 0 ==> batches[i - 1].wall <= batches[i].wall)
  }

  predicate Ascends(s: seq<int>) {
    forall i, j :: 0 <= i < j < |s| ==> s[i] <= s[j]
  }

  /** Timestamps never go back, within a read or from one read to the next, which is what the output
      queues rely on; none is in the future. */
  lemma {:induction false} AllAscend(batches: seq<Batch>)
    requires Monotone(batches)
    ensures Ascends(AllStamps(batches))
    ensures forall i :: 0 <= i < |AllStamps(batches)| ==> AllStamps(batches)[i] <= LastOf(batches)
  {
    if batches != [] {
      var init, b := batches[..|batches| - 1], batches[|batches| - 1];
      AllAscend(init);
      var last, n := LastOf(init), b.count;
      var a, s := AllStamps(init), Stamps(last, b.wall, n);
      assert init != [] ==> last == batches[|batches| - 2].wall <= b.wall;
      forall k | 0 <= k < n ensures s[k] <= b.wall && (init != [] ==> last <= s[k]) {
        BatchWithin(last, b.wall, n);
        StampsAscend(last, b.wall, n, k, n - 1);
        StampsAscend(last, b.wall, n, 0, k);
      }
      forall i, j | 0 <= i < j < n ensures s[i] <= s[j] {
        StampsAscend(last, b.wall, n, i, j);
      }
      Appended(a, s, last);
    }
  }

  lemma Appended(a: seq<int>, s: seq<int>, last: int)
    requires Ascends(a) && Ascends(s)
    requires forall i :: 0 <= i < |a| ==> a[i] <= last
    requires a != [] ==> forall k :: 0 <= k < |s| ==> last <= s[k]
    ensures Ascends(a + s)
  {
  }
}
