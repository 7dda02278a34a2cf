/** What an output is given over time, and how the EIT packets in it make up one section stream. */
module Intakes {
  import opened Common
  import opened PacketQueue
  import opened Outputs
  import Programs
  import Sections

  /** The TS packets put into an output so far, the EIT packet carried over, the continuity counter of the EIT,
      and what decides what the output is given. */
  datatype Intake = Intake(puts: seq<Item>, carry: Option<Ts>, eitCc: int, pcrPid: int, valid: bool, passthrough: bool)

  function Items(out: seq<Ts>, dts: int): (items: seq<Item>)
    ensures |items| == |out| && forall n :: 0 <= n < |out| ==> items[n] == Item(dts, out[n])
  {
    seq(|out|, n requires 0 <= n < |out| => Item(dts, out[n]))
  }

  /** A section of another table, which is not carried over. */
  function Sectioned(v: Intake, section: seq<Byte>, pid: Pid, cc: int, dts: int): Intake
    requires section != []
  {
    v.(puts := v.puts + Items(Sections.SendFrom(Sections.Mill([], None, cc), section, 0, pid, false).out, dts))
  }

  predicate CarryFits(v: Intake) {
    Sections.MillOk(Sections.Mill([], v.carry, v.eitCc))
  }

  /** A section of the EIT. */
  function EitTaken(v: Intake, section: seq<Byte>, dts: int): Intake
    requires CarryFits(v) && section != []
  {
    var m := Sections.SendFrom(Sections.Mill([], v.carry, v.eitCc), section, 0, Programs.EIT_PID, true);
    v.(puts := v.puts + Items(m.out, dts), carry := m.carry, eitCc := m.cc)
  }

  /** A TS packet came on `pid`.  An output registered there is given it, on its PCR PID only if it has a PCR, and then,
      if it flushes its EIT, the packet carried over; one that passes everything through is given it as well. */
  ghost predicate GotItem(v: Intake, v': Intake, item: Item, pid: int, registered: bool, isDup: bool) {
    var flushed := v.carry.Some? && v'.carry == None;
    && (flushed ==> registered) && (!flushed ==> v'.carry == v.carry)
    && v' == v.(puts := v'.puts, carry := v'.carry)
    && v'.puts == v.puts
         + (if registered && (v.pcrPid != pid || item.ts.pcr) then [item] else [])
         + (if flushed then [Item(item.dts, v.carry.value)] else [])
         + (if v.valid && (isDup || v.passthrough) then [item] else [])
  }

  /** SendTDT gives a TS packet with the time to valid DVB outputs with an SDT that do not pass everything through. */
  function Timed(v: Intake, item: Item, dvb: bool): Intake {
    if dvb && v.valid && !v.passthrough then v.(puts := v.puts + [item]) else v
  }

  // ----- histories -----

  lemma {:induction false} PutsConcat(a: seq<Op>, b: seq<Op>)
    ensures Puts(a + b) == Puts(a) + Puts(b)
    decreases |b|
  {
    if b == [] {
      assert a + b == a;
    } else {
      assert (a + b)[..|a + b| - 1] == a + b[..|b| - 1];
      PutsConcat(a, b[..|b| - 1]);
    }
  }

  lemma {:induction false} PutsPutOps(out: seq<Ts>, dts: int)
    ensures Puts(PutOps(out, dts)) == Items(out, dts)
  {
    if out != [] {
      var n := |out| - 1;
      PutsPutOps(out[..n], dts);
      PutsConcat(PutOps(out[..n], dts), [PacketQueue.Put(Item(dts, out[n]))]);
      PutsOne(Item(dts, out[n]));
    }
  }

  lemma PutsOne(item: Item)
    ensures Puts([PacketQueue.Put(item)]) == [item]
  {
    assert [PacketQueue.Put(item)][..0] == [];
  }

  // ----- one section stream -----

  /** The sections and flushes of an output's EIT, where its packets are among those put, and the counter at
      the start. */
  datatype EitLog = EitLog(feeds: seq<Sections.Feed>, at: seq<nat>, cc: int)

  function MillOf(log: EitLog): Sections.Mill
    requires Sections.FeedsOk(log.feeds)
  {
    Sections.Grind(log.feeds, Programs.EIT_PID, true, log.cc)
  }

  /** The packets `out` are among those put, at these places, in this order. */
  ghost predicate Among(puts: seq<Item>, at: seq<nat>, out: seq<Ts>) {
    && |at| == |out|
    && (forall n :: 0 <= n < |at| ==> at[n] < |puts| && puts[at[n]].ts == out[n])
    && (forall n, m :: 0 <= n < m < |at| ==> at[n] < at[m])
  }

  ghost predicate Logged(v: Intake, log: EitLog) {
    && Sections.FeedsOk(log.feeds)
    && Among(v.puts, log.at, MillOf(log).out) && v.carry == MillOf(log).carry && v.eitCc == MillOf(log).cc
  }

  lemma LoggedNothing(v: Intake)
    requires v.carry == None
    ensures Logged(v, EitLog([], [], v.eitCc))
  {
  }

  lemma LoggedMore(v: Intake, v': Intake, log: EitLog)
    requires Logged(v, log) && v.puts <= v'.puts && v'.carry == v.carry && v'.eitCc == v.eitCc
    ensures Logged(v', log)
  {
  }

  lemma AmongMore(puts: seq<Item>, puts': seq<Item>, at: seq<nat>, out: seq<Ts>, p: nat, ts: Ts)
    requires Among(puts, at, out) && puts <= puts' && |puts| <= p < |puts'| && puts'[p].ts == ts
    ensures Among(puts', at + [p], out + [ts])
  {
  }

  lemma GrindNext(feeds: seq<Sections.Feed>, f: Sections.Feed, cc: int)
    requires Sections.FeedsOk(feeds) && (f.Section? ==> f.bytes != [])
    ensures Sections.FeedsOk(feeds + [f])
    ensures Sections.Grind(feeds + [f], Programs.EIT_PID, true, cc) ==
      var m := Sections.Grind(feeds, Programs.EIT_PID, true, cc);
      match f case Section(bytes) => Sections.SendFrom(m, bytes, 0, Programs.EIT_PID, true) case FlushEit => Sections.FlushCarry(m)
  {
    assert (feeds + [f])[..|feeds|] == feeds;
  }

  lemma LoggedFlush(v: Intake, v': Intake, log: EitLog, p: nat)
    requires Logged(v, log) && v.puts <= v'.puts && v'.eitCc == v.eitCc && v.carry.Some? && v'.carry == None
    requires |v.puts| <= p < |v'.puts| && v'.puts[p].ts == v.carry.value
    ensures Logged(v', EitLog(log.feeds + [Sections.FlushEit], log.at + [p], log.cc))
  {
    GrindNext(log.feeds, Sections.FlushEit, log.cc);
    hide Sections.Grind;
    AmongMore(v.puts, v'.puts, log.at, MillOf(log).out, p, v.carry.value);
  }

  /** What was made before does not matter for what a section makes. */
  lemma {:induction false} SendAppends(out: seq<Ts>, carry: Option<Ts>, cc: int, section: seq<Byte>, offset: nat, pid: Pid, keep: bool)
    requires Sections.MillOk(Sections.Mill([], carry, cc)) && offset < |section|
    ensures var m := Sections.SendFrom(Sections.Mill([], carry, cc), section, offset, pid, keep);
      Sections.SendFrom(Sections.Mill(out, carry, cc), section, offset, pid, keep) == m.(out := out + m.out)
    decreases |section| - offset
  {
    var (m, next) := Sections.Round(Sections.Mill([], carry, cc), section, offset, pid, keep);
    RoundAppends(out, carry, cc, section, offset, pid, keep);
    hide Sections.Round;
    if next < |section| {
      SendAppends(m.out, m.carry, m.cc, section, next, pid, keep);
      SendAppends(out + m.out, m.carry, m.cc, section, next, pid, keep);
      Assoc(out, m.out, Sections.SendFrom(Sections.Mill([], m.carry, m.cc), section, next, pid, keep).out);
    }
  }

  lemma RoundAppends(out: seq<Ts>, carry: Option<Ts>, cc: int, section: seq<Byte>, offset: nat, pid: Pid, keep: bool)
    requires Sections.MillOk(Sections.Mill([], carry, cc)) && offset < |section|
    ensures var (m, next) := Sections.Round(Sections.Mill([], carry, cc), section, offset, pid, keep);
      Sections.Round(Sections.Mill(out, carry, cc), section, offset, pid, keep) == (m.(out := out + m.out), next)
  {
    hide Sections.Split;
    var m := Sections.Round(Sections.Mill([], carry, cc), section, offset, pid, keep).0;
    assert m.out == [] || m.out == [m.out[0]];
    assert out + m.out == if m.out == [] then out else out + [m.out[0]];
  }

  function Places(start: nat, n: nat): (at: seq<nat>)
    ensures |at| == n && forall k :: 0 <= k < n ==> at[k] == start + k
  {
    seq(n, k => start + k)
  }

  lemma LoggedSection(v: Intake, log: EitLog, section: seq<Byte>, dts: int) returns (log': EitLog)
    requires Logged(v, log) && section != []
    ensures CarryFits(v) && Logged(EitTaken(v, section, dts), log') && log'.feeds == log.feeds + [Sections.Section(section)]
  {
    var out := Sections.SendFrom(Sections.Mill([], v.carry, v.eitCc), section, 0, Programs.EIT_PID, true).out;
    log' := EitLog(log.feeds + [Sections.Section(section)], log.at + Places(|v.puts|, |out|), log.cc);
    GrindNext(log.feeds, Sections.Section(section), log.cc);
    SendAppends(MillOf(log).out, v.carry, v.eitCc, section, 0, Programs.EIT_PID, true);
    hide Sections.Grind, Sections.SendFrom;
    AmongAll(v.puts, log.at, MillOf(log).out, out, dts);
  }

  lemma AmongAll(puts: seq<Item>, at: seq<nat>, out: seq<Ts>, more: seq<Ts>, dts: int)
    requires Among(puts, at, out)
    ensures Among(puts + Items(more, dts), at + Places(|puts|, |more|), out + more)
  {
  }
}
