/** A section receiver after section 2.4.4 of ISO/IEC 13818-1, and the round trip: what it gets out of
    the packets of a section stream is exactly the sections that were sent. */
module Receiver {
  import opened Common
  import opened Sections

  const STUFFING: Byte := 0xff

  datatype Rx = Rx(part: seq<Byte>, done: seq<seq<Byte>>)

  const IDLE := Rx([], [])

  function SectionLength(high: int, low: int): int {
    256 * (high % 16) + low
  }

  /** section_length counts the bytes behind the three header bytes. */
  predicate Complete(s: seq<Byte>) {
    |s| >= PSI_HEADER_SIZE && |s| == PSI_HEADER_SIZE + SectionLength(s[1], s[2])
  }

  /** A section as the gateway builds them; table_id 0xff is forbidden. */
  predicate IsSection(s: seq<Byte>) {
    Complete(s) && s[0] != STUFFING
  }

  function Push(rx: Rx, b: Byte): Rx {
    var part := rx.part + [b];
    if Complete(part) then Rx([], rx.done + [part]) else rx.(part := part)
  }

  /** One packet's payload: between sections, a stuffing byte ends it. */
  function Listen(rx: Rx, payload: seq<Byte>): Rx
    decreases |payload|
  {
    if payload == [] || (rx.part == [] && payload[0] == STUFFING) then rx
    else Listen(Push(rx, payload[0]), payload[1..])
  }

  /** The payload on the wire, after psi_split_end has filled it up. */
  function Payload(ts: Ts): seq<Byte>
    requires Size(ts) <= TS_SIZE
  {
    ts.data + seq(TS_SIZE - Size(ts), _ => STUFFING)
  }

  predicate Fit(out: seq<Ts>) {
    forall ts :: ts in out ==> Size(ts) <= TS_SIZE
  }

  function Receive(out: seq<Ts>): Rx
    requires Fit(out)
  {
    if out == [] then IDLE else Listen(Receive(out[..|out| - 1]), Payload(out[|out| - 1]))
  }

  // ----- the stream without packet boundaries -----

  function Parse(rx: Rx, bytes: seq<Byte>): Rx
    decreases |bytes|
  {
    if bytes == [] then rx else Parse(Push(rx, bytes[0]), bytes[1..])
  }

  /** No section in `bytes` starts with a stuffing byte. */
  predicate InSync(rx: Rx, bytes: seq<Byte>)
    decreases |bytes|
  {
    bytes == [] ||
    (!(rx.part == [] && bytes[0] == STUFFING) && InSync(Push(rx, bytes[0]), bytes[1..]))
  }

  lemma {:induction false} ParseConcat(rx: Rx, a: seq<Byte>, b: seq<Byte>)
    ensures Parse(rx, a + b) == Parse(Parse(rx, a), b)
    ensures InSync(rx, a + b) <==> InSync(rx, a) && InSync(Parse(rx, a), b)
    decreases |a|
  {
    if a == [] {
      assert a + b == b;
    } else {
      ParseConcat(Push(rx, a[0]), a[1..], b);
      assert (a + b)[1..] == a[1..] + b;
    }
  }

  lemma {:induction false} ParseRest(s: seq<Byte>, k: nat, done: seq<seq<Byte>>)
    requires IsSection(s) && k < |s|
    ensures var rx := Rx(s[..k], done);
      Parse(rx, s[k..]) == Rx([], done + [s]) && InSync(rx, s[k..])
    decreases |s| - k
  {
    var rx := Rx(s[..k], done);
    assert s[..k] + [s[k]] == s[..k + 1];
    assert s[k..][1..] == s[k + 1..];
    if k + 1 < |s| {
      assert Push(rx, s[k]) == Rx(s[..k + 1], done);
      ParseRest(s, k + 1, done);
    } else {
      assert s[..k + 1] == s;
    }
  }

  /** Stuffing behind data is skipped, if it follows the end of a section. */
  lemma {:induction false} ListenParses(rx: Rx, data: seq<Byte>, k: nat)
    requires InSync(rx, data)
    requires k > 0 ==> Parse(rx, data).part == []
    ensures Listen(rx, data + seq(k, _ => STUFFING)) == Parse(rx, data)
    decreases |data|
  {
    var payload := data + seq(k, _ => STUFFING);
    if data != [] {
      assert payload[1..] == data[1..] + seq(k, _ => STUFFING);
      ListenParses(Push(rx, data[0]), data[1..], k);
    }
  }

  // ----- the round trip -----

  /** Packets sent so far decode to `done`, with `part` of the next section behind them or carried. */
  ghost predicate Decodes(m: Mill, part: seq<Byte>, done: seq<seq<Byte>>) {
    && MillOk(m) && Fit(m.out)
    && Receive(m.out) == Parse(IDLE, Bytes(m.out))
    && InSync(IDLE, Contents(m))
    && Parse(IDLE, Contents(m)) == Rx(part, done)
  }

  lemma EmitDecodes(out: seq<Ts>, ts: Ts)
    requires Fit(out) && Size(ts) <= TS_SIZE
    requires Receive(out) == Parse(IDLE, Bytes(out))
    requires InSync(IDLE, Bytes(out) + ts.data)
    requires Size(ts) < TS_SIZE ==> Parse(IDLE, Bytes(out) + ts.data).part == []
    ensures Fit(out + [ts]) && Receive(out + [ts]) == Parse(IDLE, Bytes(out + [ts]))
  {
    assert (out + [ts])[..|out|] == out;
    ParseConcat(IDLE, Bytes(out), ts.data);
    ListenParses(Receive(out), ts.data, TS_SIZE - Size(ts));
  }

  lemma RoundDecodes(m: Mill, section: seq<Byte>, offset: nat, pid: Pid, keep: bool, done: seq<seq<Byte>>)
    requires MillOk(m) && offset < |section| && (keep || m.carry.None?) && IsSection(section)
    requires Decodes(m, section[..offset], done)
    ensures var (m', next) := Round(m, section, offset, pid, keep);
      if next < |section| then Decodes(m', section[..next], done) else Decodes(m', [], done + [section])
  {
    var (m', next) := Round(m, section, offset, pid, keep);
    var piece := section[offset..next];
    RoundContents(m, section, offset, pid, keep);
    ParseConcat(IDLE, Contents(m), piece);
    ParseRest(section, offset, done);
    assert section[offset..] == piece + section[next..];
    ParseConcat(Rx(section[..offset], done), piece, section[next..]);
    if next < |section| {
      PartParses(section, offset, next, done);
    } else {
      assert piece + section[next..] == piece;
    }
    var ts := RoundFills(m, section, offset, pid, keep);
    if m'.out != m.out {
      BytesAppend(m.out, ts);
      assert Contents(m') == Bytes(m.out) + ts.data;
      EmitDecodes(m.out, ts);
    }
  }

  lemma {:induction false} PartParses(s: seq<Byte>, i: nat, j: nat, done: seq<seq<Byte>>)
    requires IsSection(s) && i <= j < |s|
    ensures Parse(Rx(s[..i], done), s[i..j]) == Rx(s[..j], done)
    decreases j - i
  {
    if i < j {
      assert s[..i] + [s[i]] == s[..i + 1];
      assert s[i..j][1..] == s[i + 1..j];
      PartParses(s, i + 1, j, done);
    }
  }

  lemma {:induction false} SendDecodes(m: Mill, section: seq<Byte>, offset: nat, pid: Pid, keep: bool, done: seq<seq<Byte>>)
    requires MillOk(m) && offset < |section| && (keep || m.carry.None?) && IsSection(section)
    requires Decodes(m, section[..offset], done)
    ensures Decodes(SendFrom(m, section, offset, pid, keep), [], done + [section])
    decreases |section| - offset
  {
    var (m', next) := Round(m, section, offset, pid, keep);
    RoundDecodes(m, section, offset, pid, keep, done);
    RoundContents(m, section, offset, pid, keep);
    if next < |section| {
      SendDecodes(m', section, next, pid, keep, done);
    }
  }

  function SectionsOf(feeds: seq<Feed>): seq<seq<Byte>> {
    if feeds == [] then []
    else SectionsOf(feeds[..|feeds| - 1]) +
         (match feeds[|feeds| - 1] case Section(bytes) => [bytes] case FlushEit => [])
  }

  ghost predicate SectionFeeds(feeds: seq<Feed>) {
    forall f :: f in feeds && f.Section? ==> IsSection(f.bytes)
  }

  lemma {:induction false} GrindDecodes(feeds: seq<Feed>, pid: Pid, keep: bool, cc: int)
    requires SectionFeeds(feeds)
    ensures FeedsOk(feeds) && Decodes(Grind(feeds, pid, keep, cc), [], SectionsOf(feeds))
  {
    if feeds != [] {
      var init := feeds[..|feeds| - 1];
      GrindDecodes(init, pid, keep, cc);
      GrindContents(init, pid, keep, cc);
      var m := Grind(init, pid, keep, cc);
      match feeds[|feeds| - 1]
      case Section(bytes) =>
        assert bytes[..0] == [];
        SendDecodes(m, bytes, 0, pid, keep, SectionsOf(init));
      case FlushEit =>
        if m.carry.Some? {
          BytesAppend(m.out, m.carry.value);
          EmitDecodes(m.out, m.carry.value);
          assert Contents(FlushCarry(m)) == Contents(m);
        }
    }
  }

  /** A receiver of the packets gets exactly the sections that were sent, in order; the one packet
      that may still be carried over is all that can be missing, and FlushEIT delivers it. */
  lemma RoundTrip(feeds: seq<Feed>, pid: Pid, keep: bool, cc: int)
    requires SectionFeeds(feeds)
    ensures FeedsOk(feeds)
    ensures var m := FlushCarry(Grind(feeds, pid, keep, cc));
      Fit(m.out) && Receive(m.out) == Rx([], SectionsOf(feeds))
    ensures !keep ==> Grind(feeds, pid, keep, cc).carry.None?
  {
    GrindDecodes(feeds, pid, keep, cc);
    GrindContents(feeds, pid, keep, cc);
    GrindDecodes(feeds + [FlushEit], pid, keep, cc);
    assert (feeds + [FlushEit])[..|feeds|] == feeds;
    var m := FlushCarry(Grind(feeds, pid, keep, cc));
    assert Grind(feeds + [FlushEit], pid, keep, cc) == m;
    assert Contents(m) == Bytes(m.out);
  }
}
