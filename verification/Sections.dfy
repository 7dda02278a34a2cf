/** Cutting PSI sections into TS packets, as a function: what OutputPSISection and FlushEIT produce.

    A section stream has a continuity counter and, for the EIT, one partly filled TS packet that is
    carried over to the next section. */
module Sections {
  import opened Common

  /** Sections shorter than this are not started in the rest of a packet (PSI_HEADER_SIZE_SYNTAX1). */
  const MIN_SECTION_FRAGMENT := 8
  const TS_HEADER_SIZE := 4
  const PSI_HEADER_SIZE := 3

  datatype Mill = Mill(out: seq<Ts>, carry: Option<Ts>, cc: int)

  /** Bytes of the TS packet in use; the offset the source keeps in i_ts_offset. */
  function Size(ts: Ts): int {
    TS_HEADER_SIZE + (if ts.start then 1 else 0) + |ts.data|
  }

  const BLANK := Ts(0, 0, false, false, 0, [])

  /** The contract of psi_split_section (not part of the repository): open the packet if it is new,
      insert a pointer_field when the first section starts in it (section 2.4.4 of
      ISO/IEC 13818-1), and copy as many section bytes as fit. */
  function Opened(ts: Ts, isNew: bool, offset: nat): Ts {
    if isNew then Ts(0, 0, false, offset == 0, 0, [])
    else if offset == 0 && !ts.start then ts.(start := true, pointer := |ts.data|)
    else ts
  }

  function Copied(ts: Ts, section: seq<Byte>, offset: nat): nat
    requires Size(ts) <= TS_SIZE && offset <= |section|
  {
    if |section| - offset <= TS_SIZE - Size(ts) then |section| - offset else TS_SIZE - Size(ts)
  }

  function Split(ts: Ts, isNew: bool, section: seq<Byte>, offset: nat): (r: (Ts, nat))
    requires offset <= |section|
    requires !isNew ==> Size(ts) < TS_SIZE - 1
    ensures offset <= r.1 <= |section|
    ensures offset < |section| ==> offset < r.1
    ensures Size(r.0) <= TS_SIZE
    ensures r.1 < |section| ==> Size(r.0) == TS_SIZE
  {
    var ts' := Opened(ts, isNew, offset);
    var n := Copied(ts', section, offset);
    (ts'.(data := ts'.data + section[offset..offset + n]), offset + n)
  }

  predicate Carries(ts: Ts) {
    Size(ts) < TS_SIZE - MIN_SECTION_FRAGMENT && ts.data != []
  }

  predicate MillOk(m: Mill) {
    m.carry.Some? ==> Carries(m.carry.value)
  }

  /** One round of the loop of OutputPSISection, and the section offset after it. */
  function Round(m: Mill, section: seq<Byte>, offset: nat, pid: Pid, keep: bool): (r: (Mill, nat))
    requires MillOk(m) && offset < |section|
    ensures MillOk(r.0) && offset < r.1 <= |section|
  {
    var append := keep && m.carry.Some?;
    var (ts, next) := Split(if append then m.carry.value else BLANK, !append, section, offset);
    var ts' := if append then ts else ts.(pid := pid, cc := m.cc);
    var cc' := if append then m.cc else (m.cc + 1) % 16;
    if next == |section| && keep && Size(ts') < TS_SIZE - MIN_SECTION_FRAGMENT then
      (Mill(m.out, Some(ts'), cc'), next)
    else
      (Mill(m.out + [ts'], if keep then None else m.carry, cc'), next)
  }

  function SendFrom(m: Mill, section: seq<Byte>, offset: nat, pid: Pid, keep: bool): (r: Mill)
    requires MillOk(m) && offset < |section|
    ensures MillOk(r)
    decreases |section| - offset
  {
    var (m', next) := Round(m, section, offset, pid, keep);
    if next < |section| then SendFrom(m', section, next, pid, keep) else m'
  }

  function FlushCarry(m: Mill): Mill {
    if m.carry.None? then m else m.(out := m.out + [m.carry.value], carry := None)
  }

  // ----- runs -----

  datatype Feed = Section(bytes: seq<Byte>) | FlushEit

  predicate FeedsOk(feeds: seq<Feed>) {
    forall f :: f in feeds && f.Section? ==> |f.bytes| > 0
  }

  function Grind(feeds: seq<Feed>, pid: Pid, keep: bool, cc: int): (m: Mill)
    requires FeedsOk(feeds)
    ensures MillOk(m)
  {
    if feeds == [] then Mill([], None, cc)
    else
      var m := Grind(feeds[..|feeds| - 1], pid, keep, cc);
      match feeds[|feeds| - 1]
      case Section(bytes) => SendFrom(m, bytes, 0, pid, keep)
      case FlushEit => FlushCarry(m)
  }

  function Bytes(out: seq<Ts>): seq<Byte> {
    if out == [] then [] else Bytes(out[..|out| - 1]) + out[|out| - 1].data
  }

  function CarriedBytes(m: Mill): seq<Byte> {
    if m.carry.Some? then m.carry.value.data else []
  }

  function Contents(m: Mill): seq<Byte> {
    Bytes(m.out) + CarriedBytes(m)
  }

  function SectionBytes(feeds: seq<Feed>): seq<Byte> {
    if feeds == [] then []
    else SectionBytes(feeds[..|feeds| - 1]) +
         (match feeds[|feeds| - 1] case Section(bytes) => bytes case FlushEit => [])
  }

  // ----- the bytes, in order -----

  lemma BytesAppend(out: seq<Ts>, ts: Ts)
    ensures Bytes(out + [ts]) == Bytes(out) + ts.data
  {
    assert (out + [ts])[..|out|] == out;
  }

  /** The TS packet that a round fills: it either leaves or is the one carried now. */
  lemma RoundFills(m: Mill, section: seq<Byte>, offset: nat, pid: Pid, keep: bool) returns (ts: Ts)
    requires MillOk(m) && offset < |section|
    requires keep || m.carry.None?
    ensures var (m', next) := Round(m, section, offset, pid, keep);
      && ((m'.out == m.out + [ts] && m'.carry.None?) || (keep && next == |section| && m'.out == m.out && m'.carry == Some(ts)))
      && (next < |section| ==> m'.out == m.out + [ts] && Size(ts) == TS_SIZE)
      && Size(ts) <= TS_SIZE
      && ts.data == CarriedBytes(m) + section[offset..next]
      && ts.start == (offset == 0 || (m.carry.Some? && m.carry.value.start))
      && (ts.start ==> ts.pointer == if m.carry.Some? && m.carry.value.start then m.carry.value.pointer else |CarriedBytes(m)|)
      && ts.pid == (if m.carry.Some? then m.carry.value.pid else pid)
      && ts.cc == (if m.carry.Some? then m.carry.value.cc else m.cc)
      && m'.cc == (if m.carry.Some? then m.cc else (m.cc + 1) % 16)
  {
    var append := keep && m.carry.Some?;
    var from := if append then m.carry.value else BLANK;
    var (ts', next) := Split(from, !append, section, offset);
    SplitFills(from, !append, section, offset);
    hide Split;
    ts := if append then ts' else ts'.(pid := pid, cc := m.cc);
  }

  lemma SplitFills(ts: Ts, isNew: bool, section: seq<Byte>, offset: nat)
    requires offset < |section| && (if isNew then ts == BLANK else Size(ts) < TS_SIZE - 1)
    ensures var (r, next) := Split(ts, isNew, section, offset);
      && r.data == ts.data + section[offset..next] && (ts.data == [] ==> r.data == section[offset..next])
      && r.pid == ts.pid && r.cc == ts.cc
      && r.start == (offset == 0 || ts.start)
      && (r.start ==> r.pointer == if ts.start then ts.pointer else |ts.data|)
  {
    var next := Split(ts, isNew, section, offset).1;
    assert [] + section[offset..next] == section[offset..next];
  }

  lemma FilledContents(m: Mill, out: seq<Ts>, ts: Ts)
    requires (m.out == out + [ts] && m.carry.None?) || (m.out == out && m.carry == Some(ts))
    ensures Contents(m) == Bytes(out) + ts.data
  {
    BytesAppend(out, ts);
  }

  lemma Assoc(a: seq<Byte>, b: seq<Byte>, c: seq<Byte>)
    ensures a + (b + c) == (a + b) + c
  {
  }

  lemma RoundContents(m: Mill, section: seq<Byte>, offset: nat, pid: Pid, keep: bool)
    requires MillOk(m) && offset < |section|
    requires keep || m.carry.None?
    ensures var (m', next) := Round(m, section, offset, pid, keep);
      && Contents(m') == Contents(m) + section[offset..next]
      && (keep || m'.carry.None?)
  {
    var (m', next) := Round(m, section, offset, pid, keep);
    var ts := RoundFills(m, section, offset, pid, keep);
    FilledContents(m', m.out, ts);
    Assoc(Bytes(m.out), CarriedBytes(m), section[offset..next]);
  }

  lemma {:induction false} SendContents(m: Mill, section: seq<Byte>, offset: nat, pid: Pid, keep: bool)
    requires MillOk(m) && offset < |section|
    requires keep || m.carry.None?
    ensures var m' := SendFrom(m, section, offset, pid, keep);
      && Contents(m') == Contents(m) + section[offset..]
      && (keep || m'.carry.None?)
    decreases |section| - offset
  {
    var (m', next) := Round(m, section, offset, pid, keep);
    RoundContents(m, section, offset, pid, keep);
    hide Round, Contents;
    Slices(section, offset, next);
    if next < |section| {
      SendContents(m', section, next, pid, keep);
      Assoc(Contents(m), section[offset..next], section[next..]);
    }
  }

  lemma Slices(section: seq<Byte>, offset: nat, next: nat)
    requires offset <= next <= |section|
    ensures section[offset..] == section[offset..next] + section[next..]
    ensures next == |section| ==> section[offset..next] == section[offset..]
  {
  }

  /** No byte of any section is lost, repeated or reordered, carried packet included. */
  lemma {:induction false} GrindContents(feeds: seq<Feed>, pid: Pid, keep: bool, cc: int)
    requires FeedsOk(feeds)
    ensures var m := Grind(feeds, pid, keep, cc);
      Contents(m) == SectionBytes(feeds) && (keep || m.carry.None?)
  {
    if feeds != [] {
      var init := feeds[..|feeds| - 1];
      GrindContents(init, pid, keep, cc);
      var m := Grind(init, pid, keep, cc);
      match feeds[|feeds| - 1]
      case Section(bytes) =>
        SendContents(m, bytes, 0, pid, keep);
        assert bytes[0..] == bytes;
      case FlushEit =>
        if m.carry.Some? { BytesAppend(m.out, m.carry.value); }
    }
  }

  // ----- continuity -----

  /** The packets made so far, the carried one last. */
  function Made(m: Mill): seq<Ts> {
    if m.carry.Some? then m.out + [m.carry.value] else m.out
  }

  predicate Continuous(m: Mill, pid: Pid, cc: int) {
    && m.cc == (cc + |Made(m)|) % 16
    && forall i :: 0 <= i < |Made(m)| ==> Made(m)[i].cc == (cc + i) % 16 && Made(m)[i].pid == pid
  }

  lemma RoundContinuous(m: Mill, section: seq<Byte>, offset: nat, pid: Pid, keep: bool, cc: int)
    requires MillOk(m) && offset < |section|
    requires keep || m.carry.None?
    requires Continuous(m, pid, cc)
    ensures Continuous(Round(m, section, offset, pid, keep).0, pid, cc)
  {
    var m' := Round(m, section, offset, pid, keep).0;
    var ts := RoundFills(m, section, offset, pid, keep);
    assert Made(m') == m.out + [ts];
    assert m.carry.Some? ==> Made(m)[|m.out|] == m.carry.value;
    assert forall i :: 0 <= i < |m.out| ==> Made(m)[i] == m.out[i];
  }

  lemma {:induction false} SendContinuous(m: Mill, section: seq<Byte>, offset: nat, pid: Pid, keep: bool, cc: int)
    requires MillOk(m) && offset < |section|
    requires keep || m.carry.None?
    requires Continuous(m, pid, cc)
    ensures var m' := SendFrom(m, section, offset, pid, keep);
      && Continuous(m', pid, cc) && (keep || m'.carry.None?)
    decreases |section| - offset
  {
    var (m', next) := Round(m, section, offset, pid, keep);
    RoundContinuous(m, section, offset, pid, keep, cc);
    if next < |section| {
      SendContinuous(m', section, next, pid, keep, cc);
    }
  }

  /** Continuity counters of successive packets step by one mod 16 (section 2.4.3 of
      ISO/IEC 13818-1), whether or not a packet was carried over in between. */
  lemma {:induction false} GrindContinuous(feeds: seq<Feed>, pid: Pid, keep: bool, cc: int)
    requires FeedsOk(feeds) && 0 <= cc < 16
    ensures var m := Grind(feeds, pid, keep, cc); Continuous(m, pid, cc) && (keep || m.carry.None?)
  {
    if feeds != [] {
      var init := feeds[..|feeds| - 1];
      GrindContinuous(init, pid, keep, cc);
      match feeds[|feeds| - 1]
      case Section(bytes) => SendContinuous(Grind(init, pid, keep, cc), bytes, 0, pid, keep, cc);
      case FlushEit =>
    }
  }

  // ----- pointer fields -----

  /** Offsets in the byte stream at which sections start. */
  ghost function Starts(feeds: seq<Feed>): set<int> {
    if feeds == [] then {}
    else Starts(feeds[..|feeds| - 1]) +
         (match feeds[|feeds| - 1]
          case Section(_) => {|SectionBytes(feeds[..|feeds| - 1])|}
          case FlushEit => {})
  }

  /** What a receiver relies on in a packet whose payload starts `at` bytes into the stream: it is
      marked when a section starts in it, and then the pointer_field leads to the first one. */
  ghost predicate Pointed(ts: Ts, at: int, starts: set<int>) {
    && (ts.start <==> exists s :: s in starts && at <= s < at + |ts.data|)
    && (ts.start ==> 0 <= ts.pointer && IsFirst(at + ts.pointer, at, starts))
  }

  ghost predicate IsFirst(s: int, at: int, starts: set<int>) {
    s in starts && forall s' :: s' in starts && at <= s' ==> s <= s'
  }

  ghost predicate AllPointed(out: seq<Ts>, starts: set<int>) {
    forall i :: 0 <= i < |out| ==> Pointed(out[i], |Bytes(out[..i])|, starts)
  }

  ghost predicate BelowEnd(starts: set<int>, end: int) {
    forall s :: s in starts ==> s < end
  }

  lemma AllPointedAppend(out: seq<Ts>, ts: Ts, starts: set<int>)
    requires AllPointed(out, starts)
    requires Pointed(ts, |Bytes(out)|, starts)
    ensures AllPointed(out + [ts], starts)
  {
    forall i | 0 <= i < |out + [ts]| ensures Pointed((out + [ts])[i], |Bytes((out + [ts])[..i])|, starts) {
      if i < |out| {
        assert (out + [ts])[..i] == out[..i];
      } else {
        assert (out + [ts])[..i] == out;
      }
    }
  }

  lemma {:induction false} BytesPrefix(out: seq<Ts>, i: nat)
    requires i < |out|
    ensures |Bytes(out[..i])| + |out[i].data| <= |Bytes(out)|
    decreases |out|
  {
    if i < |out| - 1 {
      BytesPrefix(out[..|out| - 1], i);
      assert out[..|out| - 1][..i] == out[..i];
    }
  }

  lemma PointedStays(ts: Ts, at: int, starts: set<int>, s: int)
    requires Pointed(ts, at, starts) && at + |ts.data| <= s
    ensures Pointed(ts, at, starts + {s})
  {
    if ts.start {
      var s' :| s' in starts && at <= s' < at + |ts.data|;
      assert s' in starts + {s};
      assert IsFirst(at + ts.pointer, at, starts + {s});
    }
  }

  /** A section that starts at the end of the stream leaves the finished packets alone. */
  lemma NewStart(out: seq<Ts>, starts: set<int>, s: int)
    requires AllPointed(out, starts) && |Bytes(out)| <= s
    ensures AllPointed(out, starts + {s})
  {
    forall i | 0 <= i < |out| ensures Pointed(out[i], |Bytes(out[..i])|, starts + {s}) {
      BytesPrefix(out, i);
      PointedStays(out[i], |Bytes(out[..i])|, starts, s);
    }
  }

  /** The state inside the loop: `starts` already holds the start of the section being sent, of
      which `offset` bytes are out. */
  ghost predicate Midway(m: Mill, starts: set<int>, offset: nat) {
    && MillOk(m) && AllPointed(m.out, starts)
    && (offset > 0 ==> m.carry.None?)
    && |Contents(m)| - offset in starts
    && (forall s :: s in starts ==> s <= |Contents(m)| - offset)
    && (m.carry.Some? ==> Pointed(m.carry.value, |Bytes(m.out)|, starts - {|Contents(m)|}))
  }

  ghost predicate Between(m: Mill, starts: set<int>) {
    && MillOk(m) && AllPointed(m.out, starts)
    && BelowEnd(starts, |Contents(m)|)
    && (m.carry.Some? ==> Pointed(m.carry.value, |Bytes(m.out)|, starts))
  }

  lemma RoundPointed(m: Mill, section: seq<Byte>, offset: nat, pid: Pid, keep: bool, starts: set<int>)
    requires offset < |section| && (keep || m.carry.None?)
    requires Midway(m, starts, offset)
    ensures var (m', next) := Round(m, section, offset, pid, keep);
      if next < |section| then Midway(m', starts, next) else Between(m', starts)
  {
    var (m', next) := Round(m, section, offset, pid, keep);
    var ts := RoundFills(m, section, offset, pid, keep);
    RoundContents(m, section, offset, pid, keep);
    FilledPointed(m, ts, offset, starts);
    if m'.out != m.out {
      AllPointedAppend(m.out, ts, starts);
    }
  }

  lemma FilledPointed(m: Mill, ts: Ts, offset: nat, starts: set<int>)
    requires Midway(m, starts, offset)
    requires ts.start == (offset == 0 || (m.carry.Some? && m.carry.value.start))
    requires ts.start ==> ts.pointer == if m.carry.Some? && m.carry.value.start then m.carry.value.pointer else |CarriedBytes(m)|
    requires |ts.data| > |CarriedBytes(m)|
    ensures Pointed(ts, |Bytes(m.out)|, starts)
  {
    var at, s0 := |Bytes(m.out)|, |Contents(m)| - offset;
    if m.carry.Some? {
      forall s' | s' in starts && at <= s' ensures at + ts.pointer <= s' {
        assert s' == s0 || s' in starts - {s0};
      }
      assert IsFirst(at + ts.pointer, at, starts);
    }
  }

  lemma {:induction false} SendPointed(m: Mill, section: seq<Byte>, offset: nat, pid: Pid, keep: bool, starts: set<int>)
    requires offset < |section| && (keep || m.carry.None?)
    requires Midway(m, starts, offset)
    ensures Between(SendFrom(m, section, offset, pid, keep), starts)
    decreases |section| - offset
  {
    var (m', next) := Round(m, section, offset, pid, keep);
    RoundContents(m, section, offset, pid, keep);
    RoundPointed(m, section, offset, pid, keep, starts);
    if next < |section| {
      SendPointed(m', section, next, pid, keep, starts);
    }
  }

  /** One more section leaves the packets marked and pointed. */
  lemma SectionPointed(m: Mill, section: seq<Byte>, pid: Pid, keep: bool, starts: set<int>)
    requires section != [] && (keep || m.carry.None?)
    requires Between(m, starts)
    ensures Between(SendFrom(m, section, 0, pid, keep), starts + {|Contents(m)|})
  {
    var s := |Contents(m)|;
    NewStart(m.out, starts, s);
    assert starts + {s} - {s} == starts;
    SendPointed(m, section, 0, pid, keep, starts + {s});
  }

  lemma FlushPointed(m: Mill, starts: set<int>)
    requires Between(m, starts)
    ensures Between(FlushCarry(m), starts)
  {
    if m.carry.Some? {
      AllPointedAppend(m.out, m.carry.value, starts);
      BytesAppend(m.out, m.carry.value);
    }
  }

  /** After any feed, every packet is marked and pointed as section 2.4.4 of ISO/IEC 13818-1 asks. */
  lemma {:induction false} GrindPointed(feeds: seq<Feed>, pid: Pid, keep: bool, cc: int)
    requires FeedsOk(feeds)
    ensures Between(Grind(feeds, pid, keep, cc), Starts(feeds))
  {
    hide Pointed, SendFrom, FlushCarry;
    if feeds != [] {
      var init := feeds[..|feeds| - 1];
      GrindPointed(init, pid, keep, cc);
      GrindContents(init, pid, keep, cc);
      var m := Grind(init, pid, keep, cc);
      match feeds[|feeds| - 1]
      case Section(bytes) => SectionPointed(m, bytes, pid, keep, Starts(init));
      case FlushEit =>
        FlushPointed(m, Starts(init));
        assert Starts(init) + {} == Starts(init);
    }
  }
}
