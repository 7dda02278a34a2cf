/** The bit-field reader for ATSC tables: a loop over bytes that reads what a slice of the bit string
    says, most significant bit first. */
module Bits {
  import opened Common

  function Pow2(n: nat): (p: nat)
    ensures p >= 1
  {
    if n == 0 then 1 else 2 * Pow2(n - 1)
  }

  lemma {:induction false} Pow2Add(a: nat, b: nat)
    ensures Pow2(a + b) == Pow2(a) * Pow2(b) && Pow2(a) >= 1
  {
    if a > 0 {
      Pow2Add(a - 1, b);
      assert 2 * (Pow2(a - 1) * Pow2(b)) == (2 * Pow2(a - 1)) * Pow2(b);
    }
  }

  /** Bit i of the buffer; bit 0 is the most significant bit of the first byte. */
  function Bit(buf: seq<Byte>, i: nat): nat
    requires i < 8 * |buf|
  {
    buf[i / 8] / Place(7 - i % 8) % 2
  }

  function Place(n: nat): (p: nat)
    requires n < 8
    ensures p >= 1
  {
    if n == 0 then 1 else if n == 1 then 2 else if n == 2 then 4 else if n == 3 then 8
    else if n == 4 then 16 else if n == 5 then 32 else if n == 6 then 64 else 128
  }

  /** The number that bits start up to start + len spell. */
  function Slice(buf: seq<Byte>, start: nat, len: nat): nat
    requires start + len <= 8 * |buf|
  {
    if len == 0 then 0 else 2 * Slice(buf, start, len - 1) + Bit(buf, start + len - 1)
  }

  lemma {:induction false} SliceBelow(buf: seq<Byte>, start: nat, len: nat)
    requires start + len <= 8 * |buf|
    ensures Slice(buf, start, len) < Pow2(len)
  {
    if len > 0 { SliceBelow(buf, start, len - 1); }
  }

  lemma Twice(x: int, p: int)
    ensures 2 * (x * p) == x * (2 * p)
  {
  }

  lemma {:induction false} SliceSplit(buf: seq<Byte>, start: nat, a: nat, b: nat)
    requires start + a + b <= 8 * |buf|
    ensures Slice(buf, start, a + b) == Slice(buf, start, a) * Pow2(b) + Slice(buf, start + a, b)
    decreases b
  {
    hide Bit;
    if b > 0 {
      var first, last := Slice(buf, start, a), Bit(buf, start + a + b - 1);
      SliceStep(buf, start, a + b);
      SliceStep(buf, start + a, b);
      hide Slice;
      calc {
        Slice(buf, start, a + b);
        2 * Slice(buf, start, a + (b - 1)) + last;
        { SliceSplit(buf, start, a, b - 1); }
        2 * (first * Pow2(b - 1)) + 2 * Slice(buf, start + a, b - 1) + last;
        { Twice(first, Pow2(b - 1)); }
        first * Pow2(b) + Slice(buf, start + a, b);
      }
    }
  }

  lemma SliceStep(buf: seq<Byte>, start: nat, len: nat)
    requires start + len <= 8 * |buf| && len > 0
    ensures Slice(buf, start, len) == 2 * Slice(buf, start, len - 1) + Bit(buf, start + len - 1)
  {
  }

  lemma Halves(b: Byte)
    ensures b / 4 == b / 2 / 2 && b / 8 == b / 4 / 2 && b / 16 == b / 8 / 2 && b / 32 == b / 16 / 2
    ensures b / 64 == b / 32 / 2 && b / 128 == b / 64 / 2 && b / 128 < 2
  {
  }

  lemma SliceByte(buf: seq<Byte>, k: nat)
    requires k < |buf|
    ensures Slice(buf, 8 * k, 8) == buf[k]
  {
    var b, s := buf[k], 8 * k;
    Halves(b);
    SliceBits(buf, k, 1, 0);
    SliceBits(buf, k, 2, b / 128);
    SliceBits(buf, k, 3, b / 64);
    SliceBits(buf, k, 4, b / 32);
    SliceBits(buf, k, 5, b / 16);
    SliceBits(buf, k, 6, b / 8);
    SliceBits(buf, k, 7, b / 4);
    SliceBits(buf, k, 8, b / 2);
  }

  /** One more bit of a byte. */
  lemma SliceBits(buf: seq<Byte>, k: nat, n: nat, half: nat)
    requires k < |buf| && 1 <= n <= 8
    requires half == buf[k] / Place(8 - n) / 2
    requires Slice(buf, 8 * k, n - 1) == half
    ensures Slice(buf, 8 * k, n) == buf[k] / Place(8 - n)
  {
    SliceStep(buf, 8 * k, n);
    BitOf(buf, k, n - 1);
    assert 7 - (n - 1) == 8 - n;
  }

  lemma BitOf(buf: seq<Byte>, k: nat, j: nat)
    requires k < |buf| && j < 8
    ensures Bit(buf, 8 * k + j) == buf[k] / Place(7 - j) % 2
  {
    assert (8 * k + j) / 8 == k && (8 * k + j) % 8 == j;
  }

  /** The bytes that the loop reads. */
  function ByteCount(len: int): nat
    requires 1 <= len
  {
    (len - 1) / 8 + 1
  }

  /** The field lies within the bytes that the loop reads; otherwise the last shift is by a negative
      number. */
  predicate InReach(start: nat, len: int) {
    1 <= len <= 32 && start % 8 + len <= 8 * ByteCount(len)
  }

  /** Cutting the middle out of a number. */
  lemma Middle(v: nat, a: nat, b: nat, c: nat, q: nat, p: nat)
    requires v == (a * q + b) * p + c && b < q && c < p
    ensures v / p % q == b
  {
    Quotient(v, a * q + b, p, c);
    Quotient(a * q + b, a, q, b);
  }

  lemma Quotient(v: nat, n: nat, p: nat, c: nat)
    requires v == n * p + c && c < p
    ensures v / p == n && v % p == c
  {
    var d, r := v / p, v % p;
    assert v == p * d + r;
    assert n * p - d * p == r - c;
    Distribute(n, d, p);
    OnlyZero(n - d, p, r - c);
  }

  lemma Distribute(n: int, d: int, p: int)
    ensures n * p - d * p == (n - d) * p
  {
  }

  lemma OnlyZero(k: int, p: int, x: int)
    requires k * p == x && -p < x < p
    ensures k == 0
  {
    if k >= 1 {
      Product(k - 1, p);
    } else if k <= -1 {
      Product(-1 - k, p);
    }
  }

  lemma Product(a: int, b: int)
    requires 0 <= a && 0 <= b
    ensures 0 <= a * b
  {
  }

  /** Shifted to the right, and cut to so many bits. */
  function Masked(v: nat, shift: nat, len: nat): nat {
    v / Pow2(shift) % Pow2(len)
  }

  /** getBits equals the slice. */
  method GetBits(buf: seq<Byte>, startbit: nat, bitlen: int) returns (r: nat)
    requires InReach(startbit, bitlen) && startbit / 8 + ByteCount(bitlen) <= |buf|
    ensures startbit + bitlen <= 8 * |buf| && r == Slice(buf, startbit, bitlen)
  {
    hide Slice, Masked;
    var b := startbit / 8;
    var sb := startbit % 8;
    var bitHigh := 8;
    var tmp: nat := buf[b];
    SliceByte(buf, b);
    var i := 0;
    while i < (bitlen - 1) / 8
      invariant 0 <= i <= (bitlen - 1) / 8 && bitHigh == 8 * (i + 1)
      invariant tmp == Slice(buf, 8 * b, bitHigh)
    {
      OneByteMore(buf, b, i + 1);
      tmp := tmp * 0x100 % 0x1_0000_0000;
      tmp := tmp + buf[b + i + 1];
      bitHigh := bitHigh + 8;
      i := i + 1;
    }
    var shift := bitHigh - sb - bitlen;
    Cut(buf, 8 * b, sb, bitlen, shift);
    assert 8 * b + sb == startbit;
    r := Masked(tmp, shift, bitlen);
  }

  lemma OneByteMore(buf: seq<Byte>, b: nat, n: nat)
    requires 1 <= n <= 3 && b + n < |buf|
    ensures var v := Slice(buf, 8 * b, 8 * n); v * 0x100 < 0x1_0000_0000 && Slice(buf, 8 * b, 8 * n + 8) == v * 0x100 + buf[b + n]
  {
    hide Slice, Bit;
    SliceBelow(buf, 8 * b, 8 * n);
    Below(8 * n);
    SliceSplit(buf, 8 * b, 8 * n, 8);
    SliceByte(buf, b + n);
    assert 8 * b + 8 * n == 8 * (b + n) && Pow2(8) == 256;
    hide Pow2;
    Smaller(Slice(buf, 8 * b, 8 * n), Pow2(8 * n));
  }

  lemma Smaller(v: int, p: int)
    requires v < p && p * 256 <= 0x1_0000_0000
    ensures v * 0x100 < 0x1_0000_0000
  {
  }

  lemma Below(n: nat)
    requires n == 8 || n == 16 || n == 24
    ensures Pow2(n) * 256 <= 0x1_0000_0000
  {
    assert Pow2(8) == 256;
    Pow2Add(8, 8);
    Pow2Add(16, 8);
  }

  lemma Cut(buf: seq<Byte>, start: nat, before: nat, len: nat, after: nat)
    requires start + before + len + after <= 8 * |buf|
    ensures Masked(Slice(buf, start, before + len + after), after, len) == Slice(buf, start + before, len)
  {
    hide Slice, Pow2;
    Pow2Add(after, 0);
    Pow2Add(len, 0);
    SliceSplit(buf, start, before + len, after);
    SliceSplit(buf, start, before, len);
    SliceBelow(buf, start + before, len);
    SliceBelow(buf, start + before + len, after);
    Middle(Slice(buf, start, before + len + after), Slice(buf, start, before), Slice(buf, start + before, len),
           Slice(buf, start + before + len, after), Pow2(len), Pow2(after));
  }

  // ----- tables of fields -----

  datatype Field = Field(start: nat, len: nat)

  /** read_tvct_channel, field by field. */
  const TVCT_CHANNEL: seq<Field> := [
    Field(0, 16), Field(16, 16), Field(32, 16), Field(48, 16), Field(64, 16), Field(80, 16), Field(96, 16),
    Field(112, 4), Field(116, 10), Field(126, 10), Field(136, 8), Field(144, 32), Field(176, 16), Field(192, 16),
    Field(208, 2), Field(210, 1), Field(211, 1), Field(212, 2), Field(214, 1), Field(215, 3), Field(218, 6),
    Field(224, 16), Field(240, 6), Field(246, 10)]

  const RESERVED2 := 19

  predicate Tiles(fields: seq<Field>, start: nat, end: nat) {
    if fields == [] then start == end
    else fields[|fields| - 1].start + fields[|fields| - 1].len == end && start <= fields[|fields| - 1].start && Tiles(fields[..|fields| - 1], start, fields[|fields| - 1].start)
  }

  /** The number that the fields spell, one after the other. */
  function Joined(buf: seq<Byte>, fields: seq<Field>): nat
    requires forall f :: f in fields ==> f.start + f.len <= 8 * |buf|
  {
    if fields == [] then 0
    else
      var f := fields[|fields| - 1];
      Joined(buf, fields[..|fields| - 1]) * Pow2(f.len) + Slice(buf, f.start, f.len)
  }

  /** Fields that tile a record lose none of its bits and read none twice. */
  lemma {:induction false} JoinedIsAll(buf: seq<Byte>, fields: seq<Field>, start: nat, end: nat)
    requires Tiles(fields, start, end) && start <= end <= 8 * |buf|
    requires forall f :: f in fields ==> f.start + f.len <= 8 * |buf|
    ensures Joined(buf, fields) == Slice(buf, start, end - start)
  {
    hide Bit, Pow2;
    if fields != [] {
      var f := fields[|fields| - 1];
      JoinedIsAll(buf, fields[..|fields| - 1], start, f.start);
      SliceSplit(buf, start, f.start - start, f.len);
    }
  }

  /** The fields of a channel tile its 32 bytes, and getBits can read all of them but one. */
  lemma ChannelFields(i: nat)
    requires i < |TVCT_CHANNEL|
    ensures TVCT_CHANNEL[0].start == 0 && TVCT_CHANNEL[|TVCT_CHANNEL| - 1] == Field(246, 10)
    ensures TVCT_CHANNEL[i].start + TVCT_CHANNEL[i].len <= 256
    ensures i + 1 < |TVCT_CHANNEL| ==> TVCT_CHANNEL[i].start + TVCT_CHANNEL[i].len == TVCT_CHANNEL[i + 1].start
    ensures InReach(TVCT_CHANNEL[i].start, TVCT_CHANNEL[i].len) <==> i != RESERVED2
  {
  }

  lemma {:induction false} ChannelTiles(n: nat)
    requires n <= |TVCT_CHANNEL|
    ensures Tiles(TVCT_CHANNEL[..n], 0, if n == 0 then 0 else TVCT_CHANNEL[n - 1].start + TVCT_CHANNEL[n - 1].len)
  {
    if n > 0 {
      ChannelTiles(n - 1);
      assert TVCT_CHANNEL[..n][..n - 1] == TVCT_CHANNEL[..n - 1];
      ChannelFields(n - 1);
      if n > 1 { ChannelFields(n - 2); }
    }
  }

  lemma ChannelBounds()
    ensures forall f :: f in TVCT_CHANNEL ==> f.start + f.len <= 256
  {
    forall f | f in TVCT_CHANNEL ensures f.start + f.len <= 256 {
      var i :| 0 <= i < |TVCT_CHANNEL| && TVCT_CHANNEL[i] == f;
      ChannelFields(i);
    }
  }

  lemma TiledIsAll(buf: seq<Byte>, fields: seq<Field>)
    requires |buf| >= 32 && Tiles(fields, 0, 256) && forall f :: f in fields ==> f.start + f.len <= 256
    ensures forall f :: f in fields ==> f.start + f.len <= 8 * |buf|
    ensures Joined(buf, fields) == Slice(buf, 0, 256)
  {
    JoinedIsAll(buf, fields, 0, 256);
  }

  lemma ChannelComplete(buf: seq<Byte>)
    requires |buf| >= 32
    ensures forall f :: f in TVCT_CHANNEL ==> f.start + f.len <= 8 * |buf|
    ensures Joined(buf, TVCT_CHANNEL) == Slice(buf, 0, 256)
  {
    hide Slice, Joined, Tiles;
    ChannelTiles(|TVCT_CHANNEL|);
    ChannelFields(0);
    ChannelBounds();
    assert TVCT_CHANNEL[..|TVCT_CHANNEL|] == TVCT_CHANNEL;
    TiledIsAll(buf, TVCT_CHANNEL);
  }
}
