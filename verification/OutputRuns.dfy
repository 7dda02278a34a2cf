/** Whole runs of the output side: TS packets and sections come in, PMTs move PCRs and PIDs, the timer goes
    off, outputs are opened and closed, in any order. */
module OutputRuns {
  import opened Common
  import opened PacketQueue
  import opened PidAssign
  import opened PidMap
  import opened Outputs
  import opened Intakes
  import Programs
  import Sections

  datatype Event =
    | TsCame(ts: Ts, dts: int, regs: seq<Option<Output>>)
    | TdtCame(ts: Ts, dts: int, regs: seq<Option<Output>>, dvb: seq<bool>)
    | SectionCame(output: nat, section: seq<Byte>, pid: Pid, cc: int, dts: int)
    | EitCame(output: nat, section: seq<Byte>, dts: int)
    | PcrMoved(output: nat, pid: Pid)
    | Mapped(output: nat, pmt: Pmt, sid: int, newSid: int, pids: seq<int>, anyType: bool, ecm: bool, r: Remap)
    | TimerFired
    | Opened(output: nat, remap: bool, passthrough: bool)
    | Closed(output: nat)

  /** Which outputs rewrite PIDs, and which pass everything through, at most. */
  datatype Setup = Setup(rewriting: set<Output>, passing: set<Output>)

  /** No due time overflows. */
  ghost predicate InTime(all: seq<Output>, dts: int) {
    forall o :: o in all ==> dts + o.latency < INT64_MAX
  }

  /** The registrations name outputs, each once, and none that rewrites PIDs and gets everything anyway. */
  ghost predicate Registered(outputs: seq<Output>, g: Setup, regs: seq<Option<Output>>) {
    && (forall i :: 0 <= i < |regs| && regs[i].Some? ==>
          regs[i].value in outputs && !(regs[i].value in g.rewriting && regs[i].value in g.passing))
    && (forall i, j :: 0 <= i < j < |regs| && regs[i].Some? ==> regs[i] != regs[j])
  }

  /** An output that rewrites PIDs and is told the time by SendTDT is not registered on that PID. */
  ghost predicate ToldOnce(outputs: seq<Output>, g: Setup, regs: seq<Option<Output>>, dvb: seq<bool>) {
    |dvb| == |outputs| && forall k :: 0 <= k < |dvb| && dvb[k] && outputs[k] in g.rewriting ==> Some(outputs[k]) !in regs
  }

  ghost predicate Regular(dup: Output, outputs: seq<Output>, g: Setup, e: Event) {
    match e
    case TsCame(_, dts, regs) => InTime([dup] + outputs, dts) && Registered(outputs, g, regs)
    case TdtCame(_, dts, regs, dvb) =>
      InTime([dup] + outputs, dts) && Registered(outputs, g, regs) && ToldOnce(outputs, g, regs, dvb)
    case SectionCame(k, section, _, _, dts) =>
      k < |outputs| && section != [] && dts + outputs[k].latency < INT64_MAX
    case EitCame(k, section, dts) =>
      k < |outputs| && section != [] && dts + outputs[k].latency < INT64_MAX
    case PcrMoved(k, _) => k < |outputs|
    case Mapped(k, pmt, _, _, pids, anyType, _, r) =>
      k < |outputs| && RemapOk(r) && IsPid(pmt.pcrPid) && PidsOk(pmt.es) && AllFit(Wants(r, Streams(pmt.es, pids, anyType)))
    case TimerFired => true
    case Opened(k, remap, passthrough) =>
      k < |outputs| && (remap ==> outputs[k] in g.rewriting) && (passthrough ==> outputs[k] in g.passing)
    case Closed(k) => k < |outputs|
  }

  ghost predicate SetUp(m: Mux, g: Setup)
    reads m.all`remap, m.all`passthrough
  {
    forall o :: o in m.all ==> (m.Remapping(o) ==> o in g.rewriting) && (o.passthrough ==> o in g.passing)
  }

  /** The PID tables of the outputs are right, and every output has its own. */
  ghost predicate TablesApart(all: seq<Output>) {
    forall i, j :: 0 <= i < |all| && 0 <= j < |all| && i != j ==>
      {all[i].tables.newpids, all[i].tables.freepids} !! {all[j].tables.newpids, all[j].tables.freepids}
  }

  ghost predicate TablesValid(all: seq<Output>)
    reads set o | o in all :: o.tables, set o | o in all :: o.tables.newpids, set o | o in all :: o.tables.freepids
  {
    forall i :: 0 <= i < |all| ==> all[i].tables.Valid()
  }

  /** What holds between events: reference counts are right, queued blocks hold what was put, the timer
      is armed, no caller holds a block, every block that nobody holds is in the pool, and what was sent is what
      was put. */
  ghost predicate Sound(m: Mux)
    reads m, m.all, m.blocks, set o | o in m.all :: o.tables, set o | o in m.all :: o.tables.newpids, set o | o in m.all :: o.tables.freepids
  {
    && m.Inv() && m.Faithful() && m.LeakFree() && m.Armed() && m.held == multiset{} && m.AllSpelled()
    && TablesApart(m.all) && TablesValid(m.all)
  }

  lemma TablesFine(m: Mux)
    requires TablesValid(m.all)
    ensures m.TablesOk()
  {
  }

  // ----- what an output has sent, and the PID table it is to use -----

  datatype View = View(wires: seq<Dispatch>, newpids: seq<int>, remap: bool)

  ghost function ViewOf(o: Output): View
    reads o`wires, o`remap, o.tables.newpids
  {
    View(o.wires, o.tables.newpids[..], o.remap)
  }

  ghost function Views(os: seq<Output>): (vs: seq<View>)
    reads os`wires, os`remap, set o | o in os :: o.tables.newpids
    ensures |vs| == |os| && forall i :: 0 <= i < |os| ==> vs[i] == ViewOf(os[i])
  {
    if os == [] then [] else [ViewOf(os[0])] + Views(os[1..])
  }

  /** The PID table that NewPMT makes for a PMT. */
  function TableOf(pmt: Pmt, pids: seq<int>, anyType: bool, r: PidMap.Remap): seq<int>
    requires RemapOk(r) && PidsOk(pmt.es)
  {
    Assign(Wants(r, Streams(pmt.es, pids, anyType))).new_
  }

  /** What an event does to output i of all (output k of the others is i == k + 1): datagrams leave only when the timer
      goes off, under the table of that time; only NewPMT and output_Init write the table. */
  ghost predicate Follows(globalRemap: bool, e: Event, i: nat, v: View, v': View) {
    match e
    case TimerFired =>
      && v.wires <= v'.wires && v' == v.(wires := v'.wires)
      && forall n :: |v.wires| <= n < |v'.wires| ==> v'.wires[n].newpids == v.newpids && v'.wires[n].remapping == (globalRemap || v.remap)
    case Mapped(k, pmt, _, _, pids, anyType, _, r) =>
      if i == k + 1 then RemapOk(r) && PidsOk(pmt.es) && v' == v.(newpids := TableOf(pmt, pids, anyType, r)) else v' == v
    case Opened(k, remap, _) => v' == v || (i == k + 1 && v' == View([], Unused(), remap))
    case Closed(k) => v' == if i == k + 1 then v.(wires := []) else v
    case _ => v' == v
  }

  ghost predicate FollowsAll(globalRemap: bool, e: Event, vs: seq<View>, vs': seq<View>) {
    |vs| == |vs'| && forall i: nat :: i < |vs| ==> Follows(globalRemap, e, i, vs[i], vs'[i])
  }

  lemma TimerFollows(m: Mux, vs: seq<View>, seen: seq<seq<Dispatch>>)
    requires |vs| == |m.all| == |seen| && m.AllSentNow(seen)
    requires forall i :: 0 <= i < |m.all| ==> vs[i] == View(seen[i], m.all[i].tables.newpids[..], m.all[i].remap)
    ensures FollowsAll(m.globalRemap, TimerFired, vs, Views(m.all))
  {
    forall i: nat | i < |m.all| ensures Follows(m.globalRemap, TimerFired, i, vs[i], ViewOf(m.all[i])) {
      assert m.SentNow(m.all[i], seen[i]);
    }
  }

  /** Nothing changed but for output i. */
  ghost predicate OnlyAt<T>(vs: seq<T>, vs': seq<T>, i: nat) {
    |vs'| == |vs| && i < |vs| && forall j :: 0 <= j < |vs| && j != i ==> vs'[j] == vs[j]
  }

  lemma OnlyAtTwice<T>(a: seq<T>, b: seq<T>, c: seq<T>, i: nat)
    requires OnlyAt(a, b, i) && OnlyAt(b, c, i)
    ensures OnlyAt(a, c, i)
  {
  }

  lemma OnlyAtNone<T>(a: seq<T>, i: nat)
    requires i < |a|
    ensures OnlyAt(a, a, i)
  {
  }

  lemma MappedFollows(globalRemap: bool, e: Event, v: View)
    requires e.Mapped? && RemapOk(e.r) && PidsOk(e.pmt.es)
    ensures Follows(globalRemap, e, e.output + 1, v, v.(newpids := TableOf(e.pmt, e.pids, e.anyType, e.r)))
  {
  }

  lemma OpenedFollows(globalRemap: bool, e: Event, v: View)
    requires e.Opened?
    ensures Follows(globalRemap, e, e.output + 1, v, v) && Follows(globalRemap, e, e.output + 1, v, View([], Unused(), e.remap))
  {
  }

  lemma ClosedFollows(globalRemap: bool, e: Event, v: View)
    requires e.Closed?
    ensures Follows(globalRemap, e, e.output + 1, v, v.(wires := []))
  {
  }

  lemma OneViewFollows(globalRemap: bool, k: nat, e: Event, vs: seq<View>, vs': seq<View>)
    requires OnlyAt(vs, vs', k + 1)
    requires (e.Mapped? || e.Opened? || e.Closed?) && e.output == k
    requires Follows(globalRemap, e, k + 1, vs[k + 1], vs'[k + 1])
    ensures FollowsAll(globalRemap, e, vs, vs')
  {
    hide TableOf;
  }

  /** The views before the first event and after each. */
  ghost predicate Traced(globalRemap: bool, events: seq<Event>, trace: seq<seq<View>>) {
    && |trace| == |events| + 1
    && (forall j :: 0 <= j < |trace| ==> |trace[j]| == |trace[0]|)
    && forall j :: 0 <= j < |events| ==> FollowsAll(globalRemap, events[j], trace[j], trace[j + 1])
  }

  lemma TracedNext(globalRemap: bool, events: seq<Event>, e: Event, trace: seq<seq<View>>, vs: seq<View>)
    requires Traced(globalRemap, events, trace) && FollowsAll(globalRemap, e, trace[|events|], vs)
    ensures Traced(globalRemap, events + [e], trace + [vs])
  {
    hide Follows;
    var es, t := events + [e], trace + [vs];
    forall j | 0 <= j < |es| ensures FollowsAll(globalRemap, es[j], t[j], t[j + 1]) {
      assert j < |events| ==> es[j] == events[j] && t[j] == trace[j] && t[j + 1] == trace[j + 1];
    }
  }

  /** Datagram n of output i's history was sent at some event j, the timer's, under the table and flag of that time. */
  lemma {:induction false} SentUnder(globalRemap: bool, events: seq<Event>, trace: seq<seq<View>>, i: nat, n: nat) returns (j: nat)
    requires Traced(globalRemap, events, trace) && i < |trace[0]| && trace[0][i].wires == []
    requires n < |trace[|events|][i].wires|
    ensures j < |events| && events[j].TimerFired? && |trace[j][i].wires| <= n < |trace[j + 1][i].wires|
    ensures var d := trace[|events|][i].wires[n];
      d == trace[j + 1][i].wires[n] && d.newpids == trace[j][i].newpids && d.remapping == (globalRemap || trace[j][i].remap)
    decreases |events|
  {
    var last := |events| - 1;
    var v, v' := trace[last][i], trace[last + 1][i];
    assert Follows(globalRemap, events[last], i, v, v');
    if n < |v.wires| && v.wires == v'.wires[..|v.wires|] {
      assert Traced(globalRemap, events[..last], trace[..last + 1]);
      j := SentUnder(globalRemap, events[..last], trace[..last + 1], i, n);
    } else {
      j := last;
    }
  }

  /** The table that the last NewPMT among these events left to output i. */
  function TableAfter(events: seq<Event>, i: nat, initial: seq<int>): seq<int> {
    if events == [] then initial
    else
      var e := events[|events| - 1];
      if e.Mapped? && i == e.output + 1 && RemapOk(e.r) && PidsOk(e.pmt.es) then TableOf(e.pmt, e.pids, e.anyType, e.r)
      else TableAfter(events[..|events| - 1], i, initial)
  }

  /** Unless the output is set up anew in between, its table is that of the last PMT that was made for it. */
  lemma {:induction false} TableIsLast(globalRemap: bool, events: seq<Event>, trace: seq<seq<View>>, i: nat, a: nat, j: nat)
    requires Traced(globalRemap, events, trace) && i < |trace[0]| && a <= j <= |events|
    requires forall t :: a <= t < j && events[t].Opened? ==> events[t].output + 1 != i
    ensures trace[j][i].newpids == TableAfter(events[a..j], i, trace[a][i].newpids)
    decreases j
  {
    if a < j {
      TableIsLast(globalRemap, events, trace, i, a, j - 1);
      assert Follows(globalRemap, events[j - 1], i, trace[j - 1][i], trace[j][i]);
      hide Follows, Traced, TableAfter, TableOf;
      assert events[a..j] == events[a..j - 1] + [events[j - 1]];
      TableNext(globalRemap, events[a..j - 1], events[j - 1], i, trace[j - 1][i], trace[j][i], trace[a][i].newpids);
    }
  }

  lemma TableNext(globalRemap: bool, events: seq<Event>, e: Event, i: nat, v: View, v': View, initial: seq<int>)
    requires Follows(globalRemap, e, i, v, v') && (e.Opened? ==> e.output + 1 != i)
    requires v.newpids == TableAfter(events, i, initial)
    ensures v'.newpids == TableAfter(events + [e], i, initial)
  {
    hide TableOf;
    assert (events + [e])[..|events|] == events;
  }

  /** So a datagram of an output that is not set up anew went out under the table of the last PMT made for it before. */
  lemma SentUnderLast(globalRemap: bool, events: seq<Event>, trace: seq<seq<View>>, i: nat, n: nat) returns (j: nat)
    requires Traced(globalRemap, events, trace) && i < |trace[0]| && trace[0][i].wires == []
    requires n < |trace[|events|][i].wires|
    requires forall t :: 0 <= t < |events| && events[t].Opened? ==> events[t].output + 1 != i
    ensures j < |events| && events[j].TimerFired? && |trace[j][i].wires| <= n < |trace[j + 1][i].wires|
    ensures trace[|events|][i].wires[n].newpids == TableAfter(events[..j], i, trace[0][i].newpids)
  {
    j := SentUnder(globalRemap, events, trace, i, n);
    TableIsLast(globalRemap, events, trace, i, 0, j);
    assert events[0..j] == events[..j];
  }

  /** Outputs that do not rewrite PIDs never did. */
  ghost predicate Unrewritten(globalRemap: bool, all: seq<Output>, g: Setup, vs: seq<View>) {
    && |vs| == |all|
    && forall i :: 0 <= i < |all| && all[i] !in g.rewriting ==>
         !globalRemap && !vs[i].remap && forall n :: 0 <= n < |vs[i].wires| ==> !vs[i].wires[n].remapping
  }

  lemma StaysUnrewritten(globalRemap: bool, all: seq<Output>, g: Setup, e: Event, vs: seq<View>, vs': seq<View>)
    requires Unrewritten(globalRemap, all, g, vs) && FollowsAll(globalRemap, e, vs, vs')
    requires forall i :: 0 <= i < |all| && all[i] !in g.rewriting && i < |vs'| ==> !vs'[i].remap
    ensures Unrewritten(globalRemap, all, g, vs')
  {
    hide TableOf;
    forall i | 0 <= i < |all| && all[i] !in g.rewriting
      ensures !vs'[i].remap && forall n :: 0 <= n < |vs'[i].wires| ==> !vs'[i].wires[n].remapping
    {
      assert Follows(globalRemap, e, i, vs[i], vs'[i]);
    }
  }

  lemma FlagsSetUp(m: Mux, g: Setup)
    requires SetUp(m, g)
    ensures forall i :: 0 <= i < |m.all| && m.all[i] !in g.rewriting ==> !m.globalRemap && !Views(m.all)[i].remap
  {
  }

  lemma UnrewrittenAtFirst(m: Mux, g: Setup)
    requires SetUp(m, g) && forall o :: o in m.all ==> o.wires == []
    ensures Unrewritten(m.globalRemap, m.all, g, Views(m.all))
  {
    FlagsSetUp(m, g);
  }

  // ----- what an output is given -----

  ghost function IntakeOf(o: Output): Intake
    reads o`ops, o`carry, o`eitCc, o`pcrPid, o`valid, o`passthrough
  {
    Intake(PacketQueue.Puts(o.ops), o.carry, o.eitCc, o.pcrPid, o.valid, o.passthrough)
  }

  ghost function TakenIn(os: seq<Output>): (vs: seq<Intake>)
    reads os`ops, os`carry, os`eitCc, os`pcrPid, os`valid, os`passthrough
    ensures |vs| == |os| && forall i :: 0 <= i < |os| ==> vs[i] == IntakeOf(os[i])
  {
    if os == [] then [] else [IntakeOf(os[0])] + TakenIn(os[1..])
  }

  /** What output i of `os`, all outputs, is given at an event; the first one is the duplication output. */
  ghost predicate Takes(e: Event, os: seq<Output>, i: nat, v: Intake, v': Intake) {
    match e
    case TsCame(ts, dts, regs) => i < |os| && GotItem(v, v', Item(dts, ts), ts.pid, Some(os[i]) in regs, i == 0)
    case TdtCame(ts, dts, regs, dvb) =>
      && i < |os| == |dvb| + 1
      && GotItem(Timed(v, Item(dts, ts), i > 0 && dvb[i - 1]), v', Item(dts, ts), ts.pid, Some(os[i]) in regs, i == 0)
    case SectionCame(k, section, pid, cc, dts) =>
      if i == k + 1 then section != [] && v' == Sectioned(v, section, pid, cc, dts) else v' == v
    case EitCame(k, section, dts) =>
      if i == k + 1 then section != [] && CarryFits(v) && v' == EitTaken(v, section, dts) else v' == v
    case PcrMoved(k, pid) => v' == if i == k + 1 then v.(pcrPid := pid) else v
    case Opened(k, _, passthrough) =>
      v' == v || (i == k + 1 && v' == Intake([], None, v'.eitCc, 0, true, passthrough))
    case Closed(k) => v' == if i == k + 1 then v.(puts := [], carry := None, valid := false) else v
    case _ => v' == v
  }

  ghost predicate TakesAll(e: Event, os: seq<Output>, vs: seq<Intake>, vs': seq<Intake>) {
    |vs| == |vs'| == |os| && forall i: nat :: i < |vs| ==> Takes(e, os, i, vs[i], vs'[i])
  }

  ghost predicate GotAll(os: seq<Output>, vs: seq<Intake>, vs': seq<Intake>, item: Item, pid: int, regs: seq<Option<Output>>) {
    |vs| == |vs'| == |os| && forall i :: 0 <= i < |vs| ==> GotItem(vs[i], vs'[i], item, pid, Some(os[i]) in regs, i == 0)
  }

  ghost predicate AllTimed(vs: seq<Intake>, vs': seq<Intake>, item: Item, dvb: seq<bool>) {
    |vs| == |vs'| == |dvb| + 1 && forall i :: 0 <= i < |vs| ==> vs'[i] == Timed(vs[i], item, i > 0 && dvb[i - 1])
  }

  lemma OneTakes(os: seq<Output>, k: nat, e: Event, vs: seq<Intake>, vs': seq<Intake>)
    requires |vs| == |os| && OnlyAt(vs, vs', k + 1) && Takes(e, os, k + 1, vs[k + 1], vs'[k + 1])
    requires (e.SectionCame? || e.EitCame? || e.PcrMoved? || e.Opened? || e.Closed?) && e.output == k
    ensures TakesAll(e, os, vs, vs')
  {
    hide Sectioned, EitTaken, CarryFits;
  }

  lemma AllGot(e: Event, os: seq<Output>, vs: seq<Intake>, vs': seq<Intake>)
    requires e.TsCame? && GotAll(os, vs, vs', Item(e.dts, e.ts), e.ts.pid, e.regs)
    ensures TakesAll(e, os, vs, vs')
  {
    hide GotItem;
  }

  lemma AllTold(e: Event, os: seq<Output>, vs: seq<Intake>, mid: seq<Intake>, vs': seq<Intake>)
    requires e.TdtCame? && AllTimed(vs, mid, Item(e.dts, e.ts), e.dvb) && GotAll(os, mid, vs', Item(e.dts, e.ts), e.ts.pid, e.regs)
    ensures TakesAll(e, os, vs, vs')
  {
    hide GotItem, Timed;
  }

  lemma OpenedTakes(e: Event, os: seq<Output>, v: Intake, v': Intake)
    requires e.Opened? && (v' == v || v' == Intake([], None, v'.eitCc, 0, true, e.passthrough))
    ensures Takes(e, os, e.output + 1, v, v')
  {
  }

  lemma ClosedTakes(e: Event, os: seq<Output>, v: Intake, v': Intake)
    requires e.Closed? && v' == v.(puts := [], carry := None, valid := false)
    ensures Takes(e, os, e.output + 1, v, v')
  {
  }

  lemma NoneTakes(e: Event, os: seq<Output>, vs: seq<Intake>)
    requires (e.Mapped? || e.TimerFired?) && |vs| == |os|
    ensures TakesAll(e, os, vs, vs)
  {
  }

  /** What the outputs were given before the first event and after each. */
  ghost predicate Fed(events: seq<Event>, os: seq<Output>, fed: seq<seq<Intake>>) {
    && |fed| == |events| + 1
    && (forall j :: 0 <= j < |fed| ==> |fed[j]| == |fed[0]|)
    && forall j :: 0 <= j < |events| ==> TakesAll(events[j], os, fed[j], fed[j + 1])
  }

  lemma FedNext(events: seq<Event>, os: seq<Output>, e: Event, fed: seq<seq<Intake>>, vs: seq<Intake>)
    requires Fed(events, os, fed) && TakesAll(e, os, fed[|events|], vs)
    ensures Fed(events + [e], os, fed + [vs])
  {
    hide Takes;
    var es, t := events + [e], fed + [vs];
    forall j | 0 <= j < |es| ensures TakesAll(es[j], os, t[j], t[j + 1]) {
      assert j < |events| ==> es[j] == events[j] && t[j] == fed[j] && t[j + 1] == fed[j + 1];
    }
  }

  /** What demux_Handle put. */
  lemma HandedGot(m: Mux, vs: seq<Intake>, regs: seq<Option<Output>>, item: Item, pid: int, was: seq<Was>)
    requires m.Inv() && m.HandedAll(regs, item, pid, was) && |vs| == |m.all|
    requires forall i :: 0 <= i < |m.all| ==> WasSo(m.all[i], vs[i], was[i])
    ensures GotAll(m.all, vs, TakenIn(m.all), item, pid, regs)
  {
    hide TakenIn, Mux.HandedOps, Mux.PassOps, PacketQueue.Puts, Mux.Inv, GotItem, WasSo;
    DupFirst(m);
    forall i | 0 <= i < |m.all| ensures GotItem(vs[i], IntakeOf(m.all[i]), item, pid, Some(m.all[i]) in regs, i == 0) {
      OneGot(m, i, vs[i], regs, item, pid, was[i]);
    }
  }

  lemma DupFirst(m: Mux)
    requires m.Inv()
    ensures forall i :: 0 <= i < |m.all| ==> (i == 0 <==> m.all[i] == m.dup)
  {
    hide Mux.Pooling, Mux.AllOk, Sum;
    assert m.all[0] == m.dup && forall i :: 0 < i < |m.all| ==> m.all[0] != m.all[i];
  }

  /** v is the intake of o when it was as `was` says; the rest has not changed. */
  ghost predicate WasSo(o: Output, v: Intake, was: Was)
    reads o`eitCc, o`pcrPid, o`valid, o`passthrough
  {
    v == Intake(PacketQueue.Puts(was.ops), was.carry, o.eitCc, o.pcrPid, o.valid, o.passthrough)
  }

  /** What the outputs were given, written out. */
  lemma GivenOps(m: Mux, i: nat, regs: seq<Option<Output>>, item: Item, pid: int, was: Was)
    requires i < |m.all| && (i == 0 <==> m.all[i] == m.dup)
    ensures var o := m.all[i];
      && m.HandedOps(o, regs, item, pid, was) ==
           (if Some(o) in regs && (o.pcrPid != pid || item.ts.pcr) then [PacketQueue.Put(item)] else [])
           + (if Some(o) in regs && was.due && was.carry.Some? then PutOps([was.carry.value], item.dts) else [])
      && m.PassOps(o, item) == if o.valid && (i == 0 || o.passthrough) then [PacketQueue.Put(item)] else []
  {
    hide PutOps;
  }

  lemma OneGot(m: Mux, i: nat, v: Intake, regs: seq<Option<Output>>, item: Item, pid: int, was: Was)
    requires i < |m.all| && (i == 0 <==> m.all[i] == m.dup) && WasSo(m.all[i], v, was)
    requires m.all[i].ops == was.ops + m.HandedOps(m.all[i], regs, item, pid, was) + m.PassOps(m.all[i], item)
    requires m.all[i].carry == CarryAfter(was, Some(m.all[i]) in regs)
    ensures GotItem(v, IntakeOf(m.all[i]), item, pid, Some(m.all[i]) in regs, i == 0)
  {
    hide PacketQueue.Puts, PutOps;
    GivenOps(m, i, regs, item, pid, was);
    hide Mux.HandedOps, Mux.PassOps;
    var o := m.all[i];
    var registered := Some(o) in regs;
    PutsPieces(was.ops, registered && (o.pcrPid != pid || item.ts.pcr), if registered && was.due then was.carry else None,
               o.valid && (i == 0 || o.passthrough), item);
  }

  lemma PutsPieces(ops: seq<Op>, first: bool, middle: Option<Ts>, last: bool, item: Item)
    ensures PacketQueue.Puts(ops + ((if first then [PacketQueue.Put(item)] else [])
                                    + (if middle.Some? then PutOps([middle.value], item.dts) else []))
                             + (if last then [PacketQueue.Put(item)] else [])) ==
      PacketQueue.Puts(ops) + (if first then [item] else [])
        + (if middle.Some? then [Item(item.dts, middle.value)] else []) + (if last then [item] else [])
  {
    hide PacketQueue.Puts, PutOps;
    var a := if first then [PacketQueue.Put(item)] else [];
    var b := if middle.Some? then PutOps([middle.value], item.dts) else [];
    var c := if last then [PacketQueue.Put(item)] else [];
    PutsConcat(ops + (a + b), c);
    PutsConcat(ops, a + b);
    PutsConcat(a, b);
    PutsOne(item);
    NoPuts();
    if middle.Some? {
      PutsPutOps([middle.value], item.dts);
    }
  }

  lemma NoPuts()
    ensures PacketQueue.Puts([]) == []
  {
  }

  /** An output was given one section's TS packets. */
  lemma SectionPut(ops: seq<Op>, out: seq<Ts>, dts: int)
    ensures PacketQueue.Puts(ops + PutOps(out, dts)) == PacketQueue.Puts(ops) + Items(out, dts)
  {
    PutsConcat(ops, PutOps(out, dts));
    PutsPutOps(out, dts);
  }

  // ----- what is put is not sent at once -----

  /** What was sent so far is what had been put when the histories were `ops0`. */
  ghost predicate SpelledAt(m: Mux, ops0: seq<seq<Op>>)
    reads m.all`wires, m.all`seqnum0, m.all`seqnum
  {
    && |ops0| == |m.all|
    && forall i :: 0 <= i < |m.all| ==> var o := m.all[i];
         Spelling(o.wires, PacketQueue.Run(ops0[i], o.Room(), o.retention).sent, o.raw, o.udp, o.seqnum0, o.seqnum, o.Room(), o.latency)
  }

  ghost predicate OnlyPuts(ops0: seq<Op>, ops: seq<Op>) {
    ops0 <= ops && forall i :: |ops0| <= i < |ops| ==> ops[i].Put?
  }

  lemma SpelledNow(m: Mux) returns (ops0: seq<seq<Op>>)
    requires m.AllSpelled()
    ensures ops0 == AllOps(m.all) && SpelledAt(m, ops0)
  {
    hide Spelling, PacketQueue.Run;
    ops0 := AllOps(m.all);
  }

  lemma SpelledStill(m: Mux, ops0: seq<seq<Op>>)
    requires SpelledAt(m, ops0) && forall i :: 0 <= i < |m.all| ==> OnlyPuts(ops0[i], m.all[i].ops)
    ensures m.AllSpelled()
  {
    hide Spelling, PacketQueue.Run;
    forall i | 0 <= i < |m.all| ensures m.all[i].Spelled() {
      var o := m.all[i];
      var more := o.ops[|ops0[i]|..];
      assert o.ops == ops0[i] + more;
      LogPut(ops0[i], more, o.Room(), o.retention);
    }
  }

  lemma {:induction false} PutOpsPut(out: seq<Ts>, dts: int)
    ensures forall op :: op in PutOps(out, dts) ==> op.Put?
  {
    if out != [] { PutOpsPut(out[..|out| - 1], dts); }
  }

  lemma MorePuts(ops0: seq<Op>, more: seq<Op>)
    requires forall op :: op in more ==> op.Put?
    ensures OnlyPuts(ops0, ops0 + more)
  {
  }

  lemma HandedSpelled(m: Mux, ops0: seq<seq<Op>>, regs: seq<Option<Output>>, item: Item, pid: int, was: seq<Was>)
    requires SpelledAt(m, ops0) && m.HandedAll(regs, item, pid, was)
    requires |was| == |ops0| && forall i :: 0 <= i < |was| ==> OnlyPuts(ops0[i], was[i].ops)
    ensures m.AllSpelled()
  {
    hide SpelledAt, PutOps;
    forall i | 0 <= i < |m.all| ensures OnlyPuts(ops0[i], m.all[i].ops) {
      if was[i].carry.Some? {
        PutOpsPut([was[i].carry.value], item.dts);
      }
      var more := m.HandedOps(m.all[i], regs, item, pid, was[i]) + m.PassOps(m.all[i], item);
      MorePuts(was[i].ops, more);
      assert m.all[i].ops == was[i].ops + more;
    }
    SpelledStill(m, ops0);
  }

  // ----- events -----

  /** A block is fetched and filled. */
  method ReadIn(m: Mux, ts: Ts, dts: int) returns (b: Block)
    requires Sound(m)
    modifies m, m.blocks
    ensures m.held == multiset{b} && b.dts == dts && b.ts == ts
    ensures forall c :: c in m.blocks ==> c in old(m.blocks) || fresh(c)
    ensures b in m.blocks
    ensures forall i :: 0 <= i < |m.all| ==> m.MayTake(m.all[i], b)
    ensures m.Inv() && m.Faithful() && m.LeakFree() && m.Armed() && m.AllSpelled()
    ensures TablesApart(m.all) && TablesValid(m.all)
  {
    hide Mux.Inv, Mux.Faithful, Mux.LeakFree, Mux.Armed, Mux.MayTake, Mux.AllSpelled, TablesApart, TablesValid;
    m.InPool();
    b := m.NewBlock(dts);
    m.Fill(b, ts);
    Nowhere(m, b);
  }

  /** A TS packet is read into a block and handled. */
  method TakeTs(m: Mux, ts: Ts, dts: int, regs: seq<Option<Output>>, ghost g: Setup)
    requires Sound(m) && SetUp(m, g) && Regular(m.dup, m.outputs, g, TsCame(ts, dts, regs))
    modifies m, m.all`packets, m.all`ops, m.all`eit, m.all`eitOffset, m.all`carry, m.blocks
    ensures SetUp(m, g)
    ensures GotAll(m.all, old(TakenIn(m.all)), TakenIn(m.all), Item(dts, ts), ts.pid, regs)
    ensures forall c :: c in m.blocks ==> c in old(m.blocks) || fresh(c)
    ensures Sound(m)
  {
    hide Mux.Inv, Mux.Faithful, Mux.LeakFree, Mux.Armed, Mux.MayTake, Mux.OneWay, Mux.AllSpelled, TablesApart, TablesValid, InTime, Registered, SetUp, GotAll, TakenIn;
    Timely(m, dts);
    OneWayOnly(m, regs, g);
    var b := ReadIn(m, ts, dts);
    HandleIn(m, b, regs, ts.pid, {});
  }

  /** demux_Handle, for the histories. */
  method HandleIn(m: Mux, b: Block, regs: seq<Option<Output>>, pid: int, ghost spared: set<Output>)
    requires m.Inv() && m.Faithful() && m.LeakFree() && m.Armed() && m.held == multiset{b} && b in m.blocks
    requires m.OneWay(regs) && m.Spare(spared, regs) && forall o :: o in m.all ==> b.dts + o.latency < INT64_MAX
    requires forall i :: 0 <= i < |m.all| && m.all[i] !in spared ==> m.MayTake(m.all[i], b)
    requires forall i :: 0 <= i < |regs| && regs[i].Some? ==> regs[i].value in m.all
    requires forall i, j :: 0 <= i < j < |regs| && regs[i].Some? ==> regs[i] != regs[j]
    requires m.AllSpelled()
    modifies m, m.all`packets, m.all`ops, m.all`eit, m.all`eitOffset, m.all`carry, m.blocks
    ensures m.Inv() && m.Faithful() && m.LeakFree() && m.Armed() && m.held == multiset{} && m.AllSpelled()
    ensures m.blocks <= old(m.blocks)
    ensures GotAll(m.all, old(TakenIn(m.all)), TakenIn(m.all), old(Item(b.dts, b.ts)), pid, regs)
  {
    hide Mux.Inv, Mux.Faithful, Mux.LeakFree, Mux.Armed, Mux.MayTake, Mux.OneWay, Mux.Spare, Mux.AllSpelled, Mux.HandedAll, GotAll, TakenIn, PacketQueue.Puts;
    ghost var vs := TakenIn(m.all);
    ghost var item, was := Item(b.dts, b.ts), m.AllWas(m.all, b.dts);
    assert forall i :: 0 <= i < |m.all| ==> WasSo(m.all[i], vs[i], was[i]);
    HandleSpelled(m, b, regs, pid, spared, was);
    HandedGot(m, vs, regs, item, pid, was);
  }

  method HandleSpelled(m: Mux, b: Block, regs: seq<Option<Output>>, pid: int, ghost spared: set<Output>, ghost was: seq<Was>)
    requires m.Inv() && m.Faithful() && m.LeakFree() && m.Armed() && m.held == multiset{b} && b in m.blocks && m.AllSpelled()
    requires m.OneWay(regs) && m.Spare(spared, regs) && forall o :: o in m.all ==> b.dts + o.latency < INT64_MAX
    requires forall i :: 0 <= i < |m.all| && m.all[i] !in spared ==> m.MayTake(m.all[i], b)
    requires forall i :: 0 <= i < |regs| && regs[i].Some? ==> regs[i].value in m.all
    requires forall i, j :: 0 <= i < j < |regs| && regs[i].Some? ==> regs[i] != regs[j]
    requires was == m.AllWas(m.all, b.dts)
    modifies m, m.all`packets, m.all`ops, m.all`eit, m.all`eitOffset, m.all`carry, m.blocks
    ensures m.Inv() && m.Faithful() && m.LeakFree() && m.Armed() && m.held == multiset{} && m.AllSpelled()
    ensures m.blocks <= old(m.blocks)
    ensures m.HandedAll(regs, old(Item(b.dts, b.ts)), pid, was)
  {
    hide Mux.Inv, Mux.Faithful, Mux.LeakFree, Mux.Armed, Mux.MayTake, Mux.OneWay, Mux.Spare, Mux.AllSpelled, Mux.HandedAll, SpelledAt, OnlyPuts;
    ghost var ops0 := SpelledNow(m);
    ghost var item := Item(b.dts, b.ts);
    NothingPut(ops0, was);
    m.Handle(b, regs, pid, spared);
    HandedSpelled(m, ops0, regs, item, pid, was);
  }

  lemma NothingPut(ops0: seq<seq<Op>>, was: seq<Was>)
    requires |was| == |ops0| && forall i :: 0 <= i < |was| ==> was[i].ops == ops0[i]
    ensures forall i :: 0 <= i < |was| ==> OnlyPuts(ops0[i], was[i].ops)
  {
  }

  lemma Timely(m: Mux, dts: int)
    requires m.Inv() && InTime([m.dup] + m.outputs, dts)
    ensures forall o :: o in m.all ==> dts + o.latency < INT64_MAX
  {
  }

  /** A TS packet with the time of day: SendTDT first puts the same block into outputs on its own. */
  method TakeTdt(m: Mux, ts: Ts, dts: int, regs: seq<Option<Output>>, dvb: seq<bool>, ghost g: Setup)
    requires Sound(m) && SetUp(m, g) && Regular(m.dup, m.outputs, g, TdtCame(ts, dts, regs, dvb))
    modifies m, m.all`packets, m.all`ops, m.all`eit, m.all`eitOffset, m.all`carry, m.blocks
    ensures SetUp(m, g)
    ensures TakesAll(TdtCame(ts, dts, regs, dvb), m.all, old(TakenIn(m.all)), TakenIn(m.all))
    ensures forall c :: c in m.blocks ==> c in old(m.blocks) || fresh(c)
    ensures Sound(m)
  {
    hide Mux.Inv, Mux.Faithful, Mux.LeakFree, Mux.Armed, Mux.MayTake, Mux.OneWay, Mux.Spare, Mux.AllSpelled, TablesApart, TablesValid, InTime, Registered, SetUp, ToldOnce, Rewriting, NoDup, TakesAll, TakenIn;
    Timely(m, dts);
    OneWayOnly(m, regs, g);
    m.Order();
    ghost var spared := ToldRewriting(m, dvb, regs, g);
    var b := ReadIn(m, ts, dts);
    TellAndHandle(m, b, regs, ts.pid, dvb, spared);
  }

  method TellAndHandle(m: Mux, b: Block, regs: seq<Option<Output>>, pid: int, dvb: seq<bool>, ghost spared: set<Output>)
    requires m.Inv() && m.Faithful() && m.LeakFree() && m.Armed() && m.held == multiset{b} && b in m.blocks && m.AllSpelled()
    requires m.OneWay(regs) && m.Spare(spared, regs) && Rewriting(m, dvb, spared) && forall o :: o in m.all ==> b.dts + o.latency < INT64_MAX
    requires forall i :: 0 <= i < |m.all| ==> m.MayTake(m.all[i], b)
    requires forall i :: 0 <= i < |regs| && regs[i].Some? ==> regs[i].value in m.all
    requires forall i, j :: 0 <= i < j < |regs| && regs[i].Some? ==> regs[i] != regs[j]
    requires pid == b.ts.pid
    modifies m, m.all`packets, m.all`ops, m.all`eit, m.all`eitOffset, m.all`carry, m.blocks
    ensures m.Inv() && m.Faithful() && m.LeakFree() && m.Armed() && m.held == multiset{} && m.AllSpelled()
    ensures m.blocks <= old(m.blocks)
    ensures TakesAll(TdtCame(old(b.ts), old(b.dts), regs, dvb), m.all, old(TakenIn(m.all)), TakenIn(m.all))
  {
    hide Mux.Inv, Mux.Faithful, Mux.LeakFree, Mux.Armed, Mux.MayTake, Mux.OneWay, Mux.Spare, Mux.AllSpelled, Rewriting, GotAll, AllTimed, TakesAll, TakenIn;
    ghost var vs := TakenIn(m.all);
    ghost var e := TdtCame(b.ts, b.dts, regs, dvb);
    Tell(m, b, dvb, spared);
    ghost var mid := TakenIn(m.all);
    HandleIn(m, b, regs, pid, spared);
    AllTold(e, m.all, vs, mid, TakenIn(m.all));
  }

  /** Outputs that rewrite PIDs and are told the time. */
  ghost predicate Rewriting(m: Mux, dvb: seq<bool>, spared: set<Output>)
    reads m.all`valid, m.all`passthrough, m.all`remap
  {
    && |m.all| == |dvb| + 1
    && forall i :: 0 < i < |m.all| && dvb[i - 1] && m.all[i].valid && !m.all[i].passthrough && m.Remapping(m.all[i]) ==> m.all[i] in spared
  }

  lemma ToldRewriting(m: Mux, dvb: seq<bool>, regs: seq<Option<Output>>, g: Setup) returns (spared: set<Output>)
    requires m.Inv() && SetUp(m, g) && ToldOnce(m.outputs, g, regs, dvb)
    ensures m.Spare(spared, regs) && Rewriting(m, dvb, spared)
  {
    hide Mux.Inv, Registered;
    NotDup(m);
    m.Order();
    spared := set k | 0 <= k < |dvb| && dvb[k] && !m.outputs[k].passthrough && m.Remapping(m.outputs[k]) :: m.outputs[k];
    forall i | 0 <= i < |m.all| && m.all[i] in spared
      ensures Some(m.all[i]) !in regs && m.all[i] != m.dup && !m.all[i].passthrough
    {
      var k :| 0 <= k < |dvb| && dvb[k] && m.outputs[k] == m.all[i] && !m.outputs[k].passthrough && m.Remapping(m.outputs[k]);
      assert m.outputs[k] in m.outputs;
    }
    forall i | 0 < i < |m.all| && dvb[i - 1] && m.all[i].valid && !m.all[i].passthrough && m.Remapping(m.all[i])
      ensures m.all[i] in spared
    {
      assert m.all[i] == m.outputs[i - 1];
    }
  }

  method Tell(m: Mux, b: Block, dvb: seq<bool>, ghost spared: set<Output>)
    requires m.Inv() && m.Faithful() && m.LeakFree() && m.Armed() && m.held == multiset{b} && b in m.blocks && m.AllSpelled()
    requires Rewriting(m, dvb, spared) && forall o :: o in m.all ==> b.dts + o.latency < INT64_MAX
    requires forall i :: 0 <= i < |m.all| ==> m.MayTake(m.all[i], b)
    modifies m, m.all`packets, m.all`ops, b`refcount
    ensures m.Inv() && m.Faithful() && m.LeakFree() && m.Armed() && m.held == multiset{b} && m.AllSpelled()
    ensures m.blocks == old(m.blocks) && b.dts == old(b.dts) && b.ts == old(b.ts)
    ensures AllTimed(old(TakenIn(m.all)), TakenIn(m.all), Item(b.dts, b.ts), dvb)
    ensures forall i :: 0 <= i < |m.all| && m.all[i] !in spared ==> m.MayTake(m.all[i], b)
  {
    hide Mux.Inv, Mux.Faithful, Mux.LeakFree, Mux.Armed, Mux.MayTake, Mux.AllSpelled, Mux.Told, SpelledAt, AllTimed, TakenIn;
    ghost var vs := TakenIn(m.all);
    m.Order();
    ghost var item := Item(b.dts, b.ts);
    ghost var ops0 := SpelledNow(m);
    m.SendTdt(b, dvb, item);
    ToldSpelled(m, dvb, b, item, ops0);
    ToldOthers(m, dvb, b, item, ops0, spared);
    ToldOnly(m, dvb, b, item, ops0, vs);
  }

  lemma ToldOnly(m: Mux, dvb: seq<bool>, b: Block, item: Item, ops0: seq<seq<Op>>, vs: seq<Intake>)
    requires m.Told(|m.outputs|, dvb, b, item, ops0) && |vs| == |m.all| == |m.outputs| + 1
    requires forall i :: 0 <= i < |vs| ==>
      vs[i] == Intake(PacketQueue.Puts(ops0[i]), m.all[i].carry, m.all[i].eitCc, m.all[i].pcrPid, m.all[i].valid, m.all[i].passthrough)
    ensures AllTimed(vs, TakenIn(m.all), item, dvb)
  {
    hide TakenIn, Mux.MayTake, PacketQueue.Puts;
    forall i: nat | i < |m.all| ensures IntakeOf(m.all[i]) == Timed(vs[i], item, i > 0 && dvb[i - 1]) {
      var more := m.TdtOps(i, dvb, item);
      assert m.all[i].ops == ops0[i] + more;
      PutsConcat(ops0[i], more);
      PutsOne(item);
      NoPuts();
    }
  }

  lemma ToldSpelled(m: Mux, dvb: seq<bool>, b: Block, item: Item, ops0: seq<seq<Op>>)
    requires SpelledAt(m, ops0) && m.Told(|m.outputs|, dvb, b, item, ops0)
    ensures m.AllSpelled()
  {
    hide SpelledAt, Mux.MayTake;
    forall i: nat | i < |m.all| ensures OnlyPuts(ops0[i], m.all[i].ops) {
      assert m.all[i].ops == ops0[i] + m.TdtOps(i, dvb, item) || m.all[i].ops == ops0[i] + [];
    }
    SpelledStill(m, ops0);
  }

  lemma ToldOthers(m: Mux, dvb: seq<bool>, b: Block, item: Item, ops0: seq<seq<Op>>, spared: set<Output>)
    requires m.Told(|m.outputs|, dvb, b, item, ops0) && Rewriting(m, dvb, spared)
    ensures forall i :: 0 <= i < |m.all| && m.all[i] !in spared ==> m.MayTake(m.all[i], b)
  {
    hide Mux.MayTake;
  }

  /** The packets of a section were put, and the last one is carried over if it is to be kept. */
  ghost predicate Ground(v: Intake, v': Intake, section: seq<Byte>, pid: Pid, cc: int, dts: int, keep: bool, cc': int)
    requires section != []
  {
    var mill := Sections.Mill([], if keep then v.carry else None, cc);
    && Sections.MillOk(mill)
    && var mill' := Sections.SendFrom(mill, section, 0, pid, keep);
      && v' == v.(puts := v.puts + Items(mill'.out, dts), carry := if keep then mill'.carry else v.carry)
      && cc' == mill'.cc
  }

  /** OutputPSISection, for the histories. */
  method SectionIn(m: Mux, o: Output, ghost i: nat, section: seq<Byte>, pid: Pid, cc: int, dts: int, keep: bool) returns (cc': int)
    requires m.Inv() && m.Faithful() && m.LeakFree() && m.Armed() && m.held == multiset{} && m.AllSpelled()
    requires i < |m.all| && m.all[i] == o && forall j :: 0 <= j < |m.all| && j != i ==> m.all[j] != o
    requires section != [] && dts + o.latency < INT64_MAX
    modifies m, o`packets, o`ops, o`eit, o`eitOffset, o`carry, m.blocks
    ensures m.Inv() && m.Faithful() && m.LeakFree() && m.Armed() && m.held == multiset{} && m.AllSpelled()
    ensures forall c :: c in m.blocks ==> c in old(m.blocks) || fresh(c)
    ensures OnlyAt(old(TakenIn(m.all)), TakenIn(m.all), i)
    ensures Ground(old(TakenIn(m.all)[i]), TakenIn(m.all)[i], section, pid, cc, dts, keep, cc')
  {
    hide Mux.Inv, Mux.Faithful, Mux.LeakFree, Mux.Armed, Mux.AllSpelled, Sections.SendFrom, Sections.MillOk, PutOps, TakenIn, PacketQueue.Puts, Ground;
    ghost var ops0, v := o.ops, TakenIn(m.all)[i];
    ghost var mill := Sections.Mill([], if keep then o.carry else None, cc);
    m.CarryFits(o);
    MillFits(mill);
    cc' := GrindIn(m, o, i, section, pid, cc, dts, keep);
    GroundIs(v, TakenIn(m.all)[i], ops0, o.ops, section, pid, cc, dts, keep, cc');
  }

  lemma GroundIs(v: Intake, v': Intake, ops: seq<Op>, ops': seq<Op>, section: seq<Byte>, pid: Pid, cc: int, dts: int, keep: bool, cc': int)
    requires section != [] && Sections.MillOk(Sections.Mill([], if keep then v.carry else None, cc))
    requires v.puts == PacketQueue.Puts(ops) && v'.puts == PacketQueue.Puts(ops')
    requires var mill' := Sections.SendFrom(Sections.Mill([], if keep then v.carry else None, cc), section, 0, pid, keep);
      && ops' == ops + PutOps(mill'.out, dts) && cc' == mill'.cc && v' == v.(puts := v'.puts, carry := if keep then mill'.carry else v.carry)
    ensures Ground(v, v', section, pid, cc, dts, keep, cc')
  {
    hide Sections.SendFrom, Sections.MillOk, PutOps, PacketQueue.Puts;
    SectionPut(ops, Sections.SendFrom(Sections.Mill([], if keep then v.carry else None, cc), section, 0, pid, keep).out, dts);
  }

  method GrindIn(m: Mux, o: Output, ghost i: nat, section: seq<Byte>, pid: Pid, cc: int, dts: int, keep: bool) returns (cc': int)
    requires m.Inv() && m.Faithful() && m.LeakFree() && m.Armed() && m.held == multiset{} && m.AllSpelled()
    requires i < |m.all| && m.all[i] == o && forall j :: 0 <= j < |m.all| && j != i ==> m.all[j] != o
    requires section != [] && dts + o.latency < INT64_MAX
    requires Sections.MillOk(Sections.Mill([], if keep then o.carry else None, cc))
    modifies m, o`packets, o`ops, o`eit, o`eitOffset, o`carry, m.blocks
    ensures m.Inv() && m.Faithful() && m.LeakFree() && m.Armed() && m.held == multiset{} && m.AllSpelled()
    ensures forall c :: c in m.blocks ==> c in old(m.blocks) || fresh(c)
    ensures var mill' := Sections.SendFrom(Sections.Mill([], if keep then old(o.carry) else None, cc), section, 0, pid, keep);
      o.ops == old(o.ops) + PutOps(mill'.out, dts) && cc' == mill'.cc && o.carry == if keep then mill'.carry else old(o.carry)
  {
    hide Mux.Inv, Mux.Faithful, Mux.LeakFree, Mux.Armed, Mux.AllSpelled, Sections.SendFrom, Sections.MillOk, PutOps, SpelledAt, OnlyPuts;
    ghost var ops0 := SpelledNow(m);
    ghost var out := Sections.SendFrom(Sections.Mill([], if keep then o.carry else None, cc), section, 0, pid, keep).out;
    cc' := m.OutputPsiSection(o, section, pid, cc, dts, keep);
    SectionSpelled(m, i, ops0, out, dts);
  }

  lemma SectionSpelled(m: Mux, i: nat, ops0: seq<seq<Op>>, out: seq<Ts>, dts: int)
    requires SpelledAt(m, ops0) && i < |m.all| == |ops0| && m.all[i].ops == ops0[i] + PutOps(out, dts)
    requires forall j :: 0 <= j < |m.all| && j != i ==> m.all[j].ops == ops0[j]
    ensures m.AllSpelled()
  {
    hide SpelledAt, Mux.AllSpelled, PutOps;
    PutOpsPut(out, dts);
    MorePuts(ops0[i], PutOps(out, dts));
    SpelledStill(m, ops0);
  }

  method TakeSection(m: Mux, k: nat, section: seq<Byte>, pid: Pid, cc: int, dts: int, ghost g: Setup)
    requires Sound(m) && SetUp(m, g) && k < |m.outputs| && section != [] && dts + m.outputs[k].latency < INT64_MAX
    modifies m, m.all`packets, m.all`ops, m.all`eit, m.all`eitOffset, m.all`carry, m.blocks
    ensures SetUp(m, g)
    ensures OnlyAt(old(TakenIn(m.all)), TakenIn(m.all), k + 1)
    ensures TakenIn(m.all)[k + 1] == Sectioned(old(TakenIn(m.all))[k + 1], section, pid, cc, dts)
    ensures forall c :: c in m.blocks ==> c in old(m.blocks) || fresh(c)
    ensures Sound(m)
  {
    hide Mux.Inv, Mux.Faithful, Mux.LeakFree, Mux.Armed, Mux.AllSpelled, TablesApart, TablesValid, Sections.SendFrom, TakenIn, OnlyAt, SetUp;
    SoundInv(m);
    var _ := SectionIn(m, m.outputs[k], k + 1, section, pid, cc, dts, false);
  }

  /** A section of the EIT, which goes on from the packet carried over. */
  method TakeEit(m: Mux, k: nat, section: seq<Byte>, dts: int, ghost g: Setup)
    requires Sound(m) && SetUp(m, g) && k < |m.outputs| && section != [] && dts + m.outputs[k].latency < INT64_MAX
    modifies m, m.all`packets, m.all`ops, m.all`eit, m.all`eitOffset, m.all`carry, m.all`eitCc, m.blocks
    ensures SetUp(m, g)
    ensures OnlyAt(old(TakenIn(m.all)), TakenIn(m.all), k + 1)
    ensures CarryFits(old(TakenIn(m.all))[k + 1])
    ensures TakenIn(m.all)[k + 1] == EitTaken(old(TakenIn(m.all))[k + 1], section, dts)
    ensures forall c :: c in m.blocks ==> c in old(m.blocks) || fresh(c)
    ensures Sound(m)
  {
    hide Mux.Inv, Mux.Faithful, Mux.LeakFree, Mux.Armed, Mux.AllSpelled, TablesApart, TablesValid, TakenIn, SetUp, OnlyAt, EitTaken, CarryFits;
    SoundInv(m);
    EitIn(m, m.outputs[k], k + 1, section, dts);
  }

  method EitIn(m: Mux, o: Output, ghost i: nat, section: seq<Byte>, dts: int)
    requires m.Inv() && m.Faithful() && m.LeakFree() && m.Armed() && m.held == multiset{} && m.AllSpelled()
    requires i < |m.all| && m.all[i] == o && forall j :: 0 <= j < |m.all| && j != i ==> m.all[j] != o
    requires section != [] && dts + o.latency < INT64_MAX
    modifies m, o`packets, o`ops, o`eit, o`eitOffset, o`carry, o`eitCc, m.blocks
    ensures OnlyAt(old(TakenIn(m.all)), TakenIn(m.all), i)
    ensures CarryFits(old(TakenIn(m.all))[i]) && TakenIn(m.all)[i] == EitTaken(old(TakenIn(m.all))[i], section, dts)
    ensures forall c :: c in m.blocks ==> c in old(m.blocks) || fresh(c)
    ensures m.Inv() && m.Faithful() && m.LeakFree() && m.Armed() && m.held == multiset{} && m.AllSpelled()
  {
    hide Mux.Inv, Mux.Faithful, Mux.LeakFree, Mux.Armed, Mux.AllSpelled, Sections.SendFrom, Sections.MillOk, TakenIn, OnlyAt, PacketQueue.Puts;
    ghost var vs := TakenIn(m.all);
    var cc := SectionIn(m, o, i, section, Programs.EIT_PID, o.eitCc, dts, true);
    ghost var mid := TakenIn(m.all);
    CountEit(m, o, i, cc);
    OnlyAtTwice(vs, mid, TakenIn(m.all), i);
  }

  lemma MillFits(mill: Sections.Mill)
    requires mill.carry.Some? ==> Sections.Carries(mill.carry.value)
    ensures Sections.MillOk(mill)
  {
  }

  method CountEit(m: Mux, o: Output, ghost i: nat, cc: int)
    requires m.Inv() && m.Faithful() && i < |m.all| && m.all[i] == o && forall j :: 0 <= j < |m.all| && j != i ==> m.all[j] != o
    modifies o`eitCc
    ensures m.Inv() && m.Faithful()
    ensures OnlyAt(old(TakenIn(m.all)), TakenIn(m.all), i)
    ensures TakenIn(m.all)[i] == old(TakenIn(m.all))[i].(eitCc := cc)
  {
    hide Mux.Pooling, Mux.Linked, Mux.AllOk, Mux.QueuesFaithful, Mux.EitFaithful, TakenIn, PacketQueue.Puts;
    o.eitCc := cc;
  }

  /** A PMT moves the PCR of an output's program. */
  method MovePcr(m: Mux, k: nat, pid: Pid, ghost g: Setup)
    requires Sound(m) && SetUp(m, g) && k < |m.outputs|
    modifies m.all`pcrPid
    ensures OnlyAt(old(TakenIn(m.all)), TakenIn(m.all), k + 1)
    ensures TakenIn(m.all)[k + 1] == old(TakenIn(m.all))[k + 1].(pcrPid := pid)
    ensures Sound(m) && SetUp(m, g)
  {
    hide TakenIn, PacketQueue.Puts, SetUp, TablesValid, Mux.Pooling, Mux.Linked, Mux.AllOk, Mux.QueuesFaithful, Mux.EitFaithful, Mux.LeakFree, Mux.Armed, Mux.AllSpelled, TablesApart;
    SoundInv(m);
    m.outputs[k].pcrPid := pid;
  }

  /** NewPMT writes the PID tables anew, while packets wait that were put under the old ones. */
  method Remap(m: Mux, k: nat, pmt: Pmt, sid: int, newSid: int, pids: seq<int>, anyType: bool, ecm: bool, r: PidMap.Remap, ghost g: Setup)
    requires Sound(m) && SetUp(m, g) && k < |m.outputs|
    requires RemapOk(r) && IsPid(pmt.pcrPid) && PidsOk(pmt.es) && AllFit(Wants(r, Streams(pmt.es, pids, anyType)))
    modifies set o | o in m.all :: o.tables.newpids, set o | o in m.all :: o.tables.freepids
    ensures OnlyAt(old(Views(m.all)), Views(m.all), k + 1)
    ensures Views(m.all)[k + 1] == old(Views(m.all))[k + 1].(newpids := TableOf(pmt, pids, anyType, r))
    ensures Sound(m) && SetUp(m, g)
  {
    hide Views, Mux.Inv, Mux.Faithful, Mux.LeakFree, Mux.Armed, Mux.AllSpelled, TablesValid, TablesApart, AllFit, OnlyAt;
    SoundInv(m);
    WriteTable(m.all, m.outputs[k], k + 1, pmt, sid, newSid, pids, anyType, ecm, r);
  }

  method WriteTable(ghost os: seq<Output>, o: Output, ghost i: nat, pmt: Pmt, sid: int, newSid: int, pids: seq<int>, anyType: bool, ecm: bool, r: PidMap.Remap)
    requires i < |os| && os[i] == o && TablesValid(os) && TablesApart(os)
    requires RemapOk(r) && IsPid(pmt.pcrPid) && PidsOk(pmt.es) && AllFit(Wants(r, Streams(pmt.es, pids, anyType)))
    modifies o.tables.newpids, o.tables.freepids
    ensures TablesValid(os)
    ensures OnlyAt(old(Views(os)), Views(os), i)
    ensures Views(os)[i] == old(Views(os))[i].(newpids := TableOf(pmt, pids, anyType, r))
  {
    hide Views, Listed, AllFit, PidMap.Kept, DistinctPids, TableOf, Wants, Streams;
    var out := NewPmt(o.tables, pmt, sid, newSid, pids, anyType, ecm, r);
    TableListed(out.es, o.tables, pmt, pids, anyType, ecm, r);
  }

  lemma TableListed(out: seq<PidMap.Es>, tables: Tables, pmt: Pmt, pids: seq<int>, anyType: bool, ecm: bool, r: PidMap.Remap)
    requires RemapOk(r) && PidsOk(pmt.es) && Listed(out, tables, Streams(pmt.es, pids, anyType), ecm, r)
    ensures tables.newpids[..] == TableOf(pmt, pids, anyType, r)
  {
  }

  method FireTimer(m: Mux, ghost g: Setup)
    requires Sound(m) && SetUp(m, g)
    modifies m, m.all`packets, m.all`seqnum, m.all`ops, m.all`wires, m.blocks
    ensures m.AllSentNow(old(AllWires(m.all)))
    ensures SetUp(m, g) && TakenIn(m.all) == old(TakenIn(m.all))
    ensures forall c :: c in m.blocks ==> c in old(m.blocks) || fresh(c)
    ensures Sound(m)
  {
    hide Mux.Inv, Mux.Faithful, Mux.LeakFree, Mux.Armed, Mux.TablesOk, Mux.AllSpelled, Mux.AllSentNow, TablesApart, TablesValid, TakenIn, SetUp;
    TablesFine(m);
    FireIn(m);
  }

  method FireIn(m: Mux)
    requires m.Inv() && m.Faithful() && m.LeakFree() && m.Armed() && m.held == multiset{} && m.AllSpelled() && m.TablesOk()
    modifies m, m.all`packets, m.all`seqnum, m.all`ops, m.all`wires, m.blocks
    ensures m.AllSentNow(old(AllWires(m.all)))
    ensures TakenIn(m.all) == old(TakenIn(m.all))
    ensures m.blocks <= old(m.blocks)
    ensures m.Inv() && m.Faithful() && m.LeakFree() && m.Armed() && m.held == multiset{} && m.AllSpelled()
  {
    hide Mux.Inv, Mux.Faithful, Mux.LeakFree, Mux.Armed, Mux.TablesOk, Mux.Earliest, Mux.NothingOverdue, Mux.AllSpelled, Mux.AllSentNow, TakenIn, PacketQueue.Puts, AllPuts, AllWires;
    ghost var vs, puts := TakenIn(m.all), AllPuts(m.all);
    m.OutputsSend();
    SameTaken(m, vs, puts);
  }

  lemma SameTaken(m: Mux, vs: seq<Intake>, puts: seq<seq<Item>>)
    requires AllPuts(m.all) == puts && |vs| == |m.all|
    requires forall i :: 0 <= i < |vs| ==>
      vs[i] == Intake(puts[i], m.all[i].carry, m.all[i].eitCc, m.all[i].pcrPid, m.all[i].valid, m.all[i].passthrough)
    ensures TakenIn(m.all) == vs
  {
    hide TakenIn, AllPuts, PacketQueue.Puts;
  }

  /** output_Create takes an output that is not in use and empty, and output_Init sets it up anew. */
  method OpenOne(m: Mux, k: nat, remap: bool, passthrough: bool, ghost g: Setup)
    requires Sound(m) && SetUp(m, g) && k < |m.outputs|
    requires (remap ==> m.outputs[k] in g.rewriting) && (passthrough ==> m.outputs[k] in g.passing)
    modifies m.all`valid, m.all`remap, m.all`passthrough, m.all`pcrPid, m.all`seqnum, m.all`seqnum0, m.all`ops, m.all`wires, m.all`eitCc
    modifies set o | o in m.all :: o.tables.newpids, set o | o in m.all :: o.tables.freepids
    ensures OnlyAt(old(Views(m.all)), Views(m.all), k + 1)
    ensures Views(m.all)[k + 1] == old(Views(m.all))[k + 1] || Views(m.all)[k + 1] == View([], Unused(), remap)
    ensures OnlyAt(old(TakenIn(m.all)), TakenIn(m.all), k + 1)
    ensures var v' := TakenIn(m.all)[k + 1]; v' == old(TakenIn(m.all))[k + 1] || v' == Intake([], None, v'.eitCc, 0, true, passthrough)
    ensures Sound(m) && SetUp(m, g)
  {
    hide OnlyAt, TakenIn, Views, Mux.Inv, Mux.Faithful, Mux.LeakFree, Mux.Armed, Mux.AllSpelled, TablesValid, TablesApart, SetUp;
    SoundInv(m);
    OnlyAtNone(Views(m.all), k + 1);
    OnlyAtNone(TakenIn(m.all), k + 1);
    var o := m.outputs[k];
    if !o.valid && o.packets == [] && o.eit == null {
      OpenIn(m, o, k + 1, remap, passthrough, g);
    }
  }

  method OpenIn(m: Mux, o: Output, ghost i: nat, remap: bool, passthrough: bool, ghost g: Setup)
    requires m.Inv() && m.Faithful() && m.LeakFree() && m.Armed() && m.held == multiset{} && m.AllSpelled()
    requires i < |m.all| && m.all[i] == o && forall j :: 0 <= j < |m.all| && j != i ==> m.all[j] != o
    requires TablesValid(m.all) && TablesApart(m.all) && SetUp(m, g) && o.packets == [] && o.eit == null
    requires (remap ==> o in g.rewriting) && (passthrough ==> o in g.passing)
    modifies o`valid, o`remap, o`passthrough, o`pcrPid, o`seqnum, o`seqnum0, o`ops, o`wires, o`eitCc, o.tables.newpids, o.tables.freepids
    ensures OnlyAt(old(Views(m.all)), Views(m.all), i)
    ensures Views(m.all)[i] == View([], Unused(), remap)
    ensures OnlyAt(old(TakenIn(m.all)), TakenIn(m.all), i)
    ensures var v' := TakenIn(m.all)[i]; v' == Intake([], None, v'.eitCc, 0, true, passthrough)
    ensures TablesValid(m.all) && SetUp(m, g)
    ensures m.Inv() && m.Faithful() && m.LeakFree() && m.Armed() && m.held == multiset{} && m.AllSpelled()
  {
    hide OnlyAt, TakenIn, Views, Mux.Inv, Mux.Faithful, Mux.LeakFree, Mux.Armed, Mux.AllSpelled, TablesValid, TablesApart, SetUp;
    ghost var vs := Views(m.all);
    ClearTable(m.all, o, i);
    ghost var mid := Views(m.all);
    SetUpAnew(m, o, i, remap, passthrough, g);
    OnlyAtTwice(vs, mid, Views(m.all), i);
  }

  method ClearTable(ghost os: seq<Output>, o: Output, ghost i: nat)
    requires i < |os| && os[i] == o && TablesValid(os) && TablesApart(os)
    modifies o.tables.newpids, o.tables.freepids
    ensures TablesValid(os)
    ensures OnlyAt(old(Views(os)), Views(os), i)
    ensures Views(os)[i] == old(Views(os))[i].(newpids := Unused())
  {
    hide Views;
    o.tables.Init();
    assert o.tables.newpids[..] == Unused();
  }

  method SetUpAnew(m: Mux, o: Output, ghost i: nat, remap: bool, passthrough: bool, ghost g: Setup)
    requires i < |m.all| && m.all[i] == o && forall j :: 0 <= j < |m.all| && j != i ==> m.all[j] != o
    requires m.Inv() && m.Faithful() && m.Armed() && m.AllSpelled() && SetUp(m, g) && o in m.all && o.packets == [] && o.eit == null
    requires (remap ==> o in g.rewriting) && (passthrough ==> o in g.passing)
    modifies o`valid, o`remap, o`passthrough, o`pcrPid, o`seqnum, o`seqnum0, o`ops, o`wires, o`eitCc
    ensures m.Inv() && m.Faithful() && m.Armed() && m.AllSpelled() && SetUp(m, g)
    ensures OnlyAt(old(Views(m.all)), Views(m.all), i)
    ensures OnlyAt(old(TakenIn(m.all)), TakenIn(m.all), i)
    ensures var v' := TakenIn(m.all)[i]; v' == Intake([], None, v'.eitCc, 0, true, passthrough)
    ensures Views(m.all)[i] == View([], old(Views(m.all))[i].newpids, remap)
  {
    hide TakenIn, Views, Mux.Inv, Mux.Faithful, Mux.Armed, Mux.AllSpelled, SetUp;
    InitOutput(m, o, i, remap, passthrough, g);
  }

  method InitOutput(m: Mux, o: Output, ghost i: nat, remap: bool, passthrough: bool, ghost g: Setup)
    requires i < |m.all| && m.all[i] == o && forall j :: 0 <= j < |m.all| && j != i ==> m.all[j] != o
    requires m.Inv() && m.Faithful() && m.Armed() && m.AllSpelled() && SetUp(m, g) && o in m.all && o.packets == [] && o.eit == null
    requires (remap ==> o in g.rewriting) && (passthrough ==> o in g.passing)
    modifies o`valid, o`remap, o`passthrough, o`pcrPid, o`seqnum, o`seqnum0, o`ops, o`wires, o`eitCc
    ensures m.Inv() && m.Faithful() && m.Armed() && m.AllSpelled() && SetUp(m, g)
    ensures o.ops == [] && o.wires == [] && o.carry == None && o.pcrPid == 0 && o.valid && o.remap == remap && o.passthrough == passthrough
  {
    hide Mux.Inv, Mux.Faithful, Mux.Armed, Mux.AllSpelled, SetUp;
    var seqnum: Seq16 := *;
    m.NoCarry(o);
    RenewIn(m, o, i, seqnum);
    var cc: int := *;
    ResetCounters(m, o, cc);
    TakeIntoUse(m, o, remap, passthrough, g);
  }

  method RenewIn(m: Mux, o: Output, ghost i: nat, seqnum: Seq16)
    requires m.Inv() && m.Faithful() && m.AllSpelled() && o.packets == []
    requires i < |m.all| && m.all[i] == o && forall j :: 0 <= j < |m.all| && j != i ==> m.all[j] != o
    modifies o`seqnum, o`seqnum0, o`ops, o`wires
    ensures m.Inv() && m.Faithful() && m.AllSpelled() && o.ops == [] && o.wires == []
  {
    hide Mux.Inv, Mux.Faithful, Output.Spelled;
    m.Renew(o, seqnum);
  }

  method ResetCounters(m: Mux, o: Output, cc: int)
    requires m.Inv() && m.Faithful() && o in m.all
    modifies o`pcrPid, o`eitCc
    ensures m.Inv() && m.Faithful() && o.pcrPid == 0
  {
    hide Mux.Pooling, Mux.Linked, Mux.AllOk, Mux.QueuesFaithful, Mux.EitFaithful;
    o.pcrPid, o.eitCc := 0, cc;
  }

  method TakeIntoUse(m: Mux, o: Output, remap: bool, passthrough: bool, ghost g: Setup)
    requires m.Inv() && m.Faithful() && m.Armed() && SetUp(m, g) && o in m.all && o.packets == []
    requires (remap ==> o in g.rewriting) && (passthrough ==> o in g.passing)
    modifies o`valid, o`remap, o`passthrough
    ensures m.Inv() && m.Faithful() && m.Armed() && SetUp(m, g) && o.remap == remap && o.valid && o.passthrough == passthrough
  {
    hide Mux.Pooling, Mux.Linked, Mux.AllOk, Mux.EitFaithful, SameContent, PacketQueue.Run;
    o.valid, o.remap, o.passthrough := true, remap, passthrough;
  }

  method CloseOne(m: Mux, k: nat, ghost g: Setup)
    requires Sound(m) && SetUp(m, g) && k < |m.outputs|
    modifies m, m.blocks, m.all`packets, m.all`ops, m.all`eit, m.all`carry, m.all`valid, m.all`wires, m.all`seqnum0
    ensures OnlyAt(old(Views(m.all)), Views(m.all), k + 1)
    ensures Views(m.all)[k + 1] == old(Views(m.all))[k + 1].(wires := [])
    ensures OnlyAt(old(TakenIn(m.all)), TakenIn(m.all), k + 1)
    ensures TakenIn(m.all)[k + 1] == old(TakenIn(m.all))[k + 1].(puts := [], carry := None, valid := false)
    ensures SetUp(m, g)
    ensures forall c :: c in m.blocks ==> c in old(m.blocks) || fresh(c)
    ensures Sound(m)
  {
    hide OnlyAt, TakenIn, Views, Mux.Inv, Mux.Faithful, Mux.LeakFree, Mux.Armed, Mux.AllSpelled, TablesApart, TablesValid, SetUp;
    SoundInv(m);
    CloseIn(m, m.outputs[k], k + 1);
  }

  method CloseIn(m: Mux, o: Output, ghost i: nat)
    requires m.Inv() && m.Faithful() && m.LeakFree() && m.Armed() && m.held == multiset{} && m.AllSpelled()
    requires i < |m.all| && m.all[i] == o && forall j :: 0 <= j < |m.all| && j != i ==> m.all[j] != o
    modifies m, m.blocks, o`packets, o`ops, o`eit, o`carry, o`valid, o`wires, o`seqnum0
    ensures OnlyAt(old(Views(m.all)), Views(m.all), i)
    ensures Views(m.all)[i] == old(Views(m.all))[i].(wires := [])
    ensures OnlyAt(old(TakenIn(m.all)), TakenIn(m.all), i)
    ensures TakenIn(m.all)[i] == old(TakenIn(m.all))[i].(puts := [], carry := None, valid := false)
    ensures m.blocks <= old(m.blocks)
    ensures m.Inv() && m.Faithful() && m.LeakFree() && m.Armed() && m.held == multiset{} && m.AllSpelled()
  {
    hide TakenIn, Views, Mux.Inv, Mux.Faithful, Mux.LeakFree, Mux.Armed, Output.Holds, Output.Spelled;
    m.Close(o);
  }

  lemma Nowhere(m: Mux, b: Block)
    requires m.Inv() && m.owners[b] == 1 && m.held[b] >= 1
    ensures forall i :: 0 <= i < |m.all| ==> m.MayTake(m.all[i], b)
  {
    m.SoleNowhere(b);
  }

  lemma Known(m: Mux, k: nat)
    requires m.Inv() && k < |m.outputs|
    ensures m.outputs[k] in m.all
  {
    assert m.all[k + 1] == m.outputs[k];
  }

  lemma OneWayOnly(m: Mux, regs: seq<Option<Output>>, g: Setup)
    requires m.Inv() && SetUp(m, g) && Registered(m.outputs, g, regs)
    ensures m.OneWay(regs) && forall i :: 0 <= i < |regs| && regs[i].Some? ==> regs[i].value in m.all
    ensures forall i, j :: 0 <= i < j < |regs| && regs[i].Some? ==> regs[i] != regs[j]
  {
    hide Mux.Inv;
    NotDup(m);
  }

  lemma NotDup(m: Mux)
    requires m.Inv()
    ensures forall o :: o in m.outputs ==> o in m.all && o != m.dup
  {
    hide Mux.Pooling, Mux.AllOk, Sum;
    forall o | o in m.outputs ensures o in m.all && o != m.dup {
      var k :| 0 <= k < |m.outputs| && m.outputs[k] == o;
      assert m.all[0] == m.dup && m.all[k + 1] == o;
    }
  }

  /** In how many places block b is: once for each time it is in a queued packet, and once for each EIT
      buffer that it is. */
  ghost function Uses(os: seq<Output>, b: Block): nat
    reads os`packets, os`eit
  {
    if os == [] then 0
    else multiset(Flat<Block>(os[0].packets))[b] + (if os[0].eit == b then 1 else 0) + Uses(os[1..], b)
  }

  lemma HoldsUses(o: Output, b: Block)
    ensures o.Holds()[b] == multiset(Flat<Block>(o.packets))[b] + if o.eit == b then 1 else 0
  {
    o.HoldsEit();
  }

  lemma {:induction false} SumUses(bags: seq<multiset<Block>>, os: seq<Output>, b: Block)
    requires |bags| == |os| && forall i :: 0 <= i < |os| ==> bags[i] == os[i].Holds()
    ensures Sum(bags)[b] == Uses(os, b)
  {
    hide Output.Holds, Flat;
    if os != [] {
      assert forall i :: 0 <= i < |os| - 1 ==> bags[1..][i] == os[1..][i].Holds();
      SumUses(bags[1..], os[1..], b);
      HoldsUses(os[0], b);
    }
  }

  /** Every block is either pooled, once, or counts the places it is in; and no wake-up is lost. */
  ghost predicate Accounted(m: Mux)
    reads m, m.all, m.blocks`refcount
  {
    && m.blockCount == |m.lifo| <= CLDVB_MAX_BLOCKS && NoDup(m.lifo)
    && (forall b :: b in m.lifo ==> b in m.blocks)
    && (forall b :: b in m.blocks ==> if b in m.lifo then Uses(m.all, b) == 0 else b.refcount == Uses(m.all, b) > 0)
    && (forall i, k, j :: 0 <= i < |m.all| && 0 <= k < |m.all[i].packets| && 0 <= j < |m.all[i].packets[k].items| ==>
          m.all[i].packets[k].items[j] in m.blocks && m.all[i].packets[k].items[j] !in m.lifo)
    && (forall o :: o in m.all && o.valid && o.packets != [] ==> m.timer.Some? && m.timer.value <= o.Due())
  }

  lemma SoundAccounted(m: Mux)
    requires Sound(m)
    ensures Accounted(m)
  {
    hide Sum, SameShape, Output.Holds, Uses, Mux.Faithful, TablesValid, TablesApart, Mux.AllSpelled, NoDup, Output.Ok;
    forall b ensures m.owners[b] == Uses(m.all, b) {
      SumUses(m.bags, m.all, b);
      assert m.owners == Sum(m.bags);
    }
    forall i, k, j | 0 <= i < |m.all| && 0 <= k < |m.all[i].packets| && 0 <= j < |m.all[i].packets[k].items|
      ensures m.all[i].packets[k].items[j] in m.blocks && m.all[i].packets[k].items[j] !in m.lifo
    {
      var b := m.all[i].packets[k].items[j];
      FlatHas(m.all[i].packets, k, j);
      m.all[i].HoldsEit();
      SumContains(m.bags, i);
      assert m.owners[b] > 0;
    }
    OnTime(m);
  }

  lemma OnTime(m: Mux)
    requires m.Inv() && m.Armed()
    ensures forall o :: o in m.all && o.valid && o.packets != [] ==> m.timer.Some? && m.timer.value <= o.Due()
  {
    hide SameShape;
    forall o | o in m.all && o.valid && o.packets != [] ensures m.timer.Some? && m.timer.value <= o.Due() {
      var i :| 0 <= i < |m.all| && m.all[i] == o;
      assert m.all[i].Ok() && o.Due() < INT64_MAX;
    }
  }

  /** Once the outputs hold nothing, the pool has every block. */
  lemma AllHome(m: Mux)
    requires Accounted(m) && forall o :: o in m.all ==> o.packets == [] && o.eit == null
    ensures forall b :: b in m.blocks <==> b in m.lifo
  {
    forall b ensures Uses(m.all, b) == 0 {
      UsesNone(m.all, b);
    }
  }

  lemma {:induction false} UsesNone(os: seq<Output>, b: Block)
    requires forall o :: o in os ==> o.packets == [] && o.eit == null
    ensures Uses(os, b) == 0
  {
    if os != [] { UsesNone(os[1..], b); }
  }

  /** Nothing has come yet. */
  method Begin(dup: Output, outputs: seq<Output>, globalRemap: bool, now: int, ghost g: Setup) returns (m: Mux)
    requires NoDup([dup] + outputs) && TablesApart([dup] + outputs) && TablesValid([dup] + outputs)
    requires forall o :: o in [dup] + outputs ==> o.Ok() && o.packets == [] && o.eit == null && o.carry == None && o.Spelled()
    requires forall o :: o in [dup] + outputs ==> (globalRemap || o.remap ==> o in g.rewriting) && (o.passthrough ==> o in g.passing)
    ensures fresh(m) && m.dup == dup && m.outputs == outputs && m.all == [dup] + outputs && m.globalRemap == globalRemap && m.blocks == {}
    ensures Sound(m) && SetUp(m, g)
  {
    hide Mux.Faithful, Mux.LeakFree, Mux.Armed, Output.Ok, Output.Spelled, NoDup, TablesApart, TablesValid, Mux.Pooling, Mux.AllOk, Output.Holds, Sum;
    m := new Mux(dup, outputs, globalRemap, now);
    assert forall i :: 0 <= i < |m.all| ==> m.all[i] in [dup] + outputs;
  }

  method Step(m: Mux, e: Event, ghost g: Setup)
    requires Sound(m) && SetUp(m, g) && Regular(m.dup, m.outputs, g, e)
    modifies m, m.all, m.blocks, set o | o in m.all :: o.tables.newpids, set o | o in m.all :: o.tables.freepids
    ensures SetUp(m, g)
    ensures forall c :: c in m.blocks ==> c in old(m.blocks) || fresh(c)
    ensures FollowsAll(m.globalRemap, e, old(Views(m.all)), Views(m.all))
    ensures TakesAll(e, m.all, old(TakenIn(m.all)), TakenIn(m.all))
    ensures Sound(m)
  {
    hide Views, TakenIn, Sound, SetUp, Regular, TableOf, FollowsAll, TakesAll;
    ghost var vs := Views(m.all);
    if e.Mapped? {
      StepMapped(m, e, g);
    } else if e.Opened? {
      StepOpened(m, e, g);
    } else if e.Closed? {
      StepClosed(m, e, g);
    } else if e.TimerFired? {
      StepTimer(m, e, g);
    } else if e.TsCame? || e.TdtCame? {
      StepTs(m, e, g);
      NoneFollows(m, e, vs);
    } else {
      StepSection(m, e, g);
      NoneFollows(m, e, vs);
    }
  }

  /** These events send nothing. */
  method StepTs(m: Mux, e: Event, ghost g: Setup)
    requires Sound(m) && SetUp(m, g) && Regular(m.dup, m.outputs, g, e)
    requires e.TsCame? || e.TdtCame?
    modifies m, m.all`packets, m.all`ops, m.all`eit, m.all`eitOffset, m.all`carry, m.blocks
    ensures SetUp(m, g)
    ensures forall c :: c in m.blocks ==> c in old(m.blocks) || fresh(c)
    ensures TakesAll(e, m.all, old(TakenIn(m.all)), TakenIn(m.all))
    ensures Sound(m)
  {
    hide Sound, SetUp, InTime, Registered, ToldOnce, AllFit, TakenIn, GotAll, TakesAll;
    ghost var vs := TakenIn(m.all);
    if e.TsCame? {
      TakeTs(m, e.ts, e.dts, e.regs, g);
      AllGot(e, m.all, vs, TakenIn(m.all));
    } else {
      TakeTdt(m, e.ts, e.dts, e.regs, e.dvb, g);
    }
  }

  method StepSection(m: Mux, e: Event, ghost g: Setup)
    requires Sound(m) && SetUp(m, g) && Regular(m.dup, m.outputs, g, e)
    requires e.SectionCame? || e.EitCame? || e.PcrMoved?
    modifies m, m.all`packets, m.all`ops, m.all`eit, m.all`eitOffset, m.all`carry, m.all`eitCc, m.all`pcrPid, m.blocks
    ensures SetUp(m, g)
    ensures forall c :: c in m.blocks ==> c in old(m.blocks) || fresh(c)
    ensures TakesAll(e, m.all, old(TakenIn(m.all)), TakenIn(m.all))
    ensures Sound(m)
  {
    hide Sound, SetUp, InTime, Registered, ToldOnce, AllFit, TakenIn, TakesAll, OnlyAt, Sectioned, EitTaken, CarryFits;
    ghost var vs := TakenIn(m.all);
    match e {
      case SectionCame(k, section, pid, cc, dts) =>
        TakeSection(m, k, section, pid, cc, dts, g);
        OneTakes(m.all, k, e, vs, TakenIn(m.all));
      case EitCame(k, section, dts) =>
        TakeEit(m, k, section, dts, g);
        OneTakes(m.all, k, e, vs, TakenIn(m.all));
      case PcrMoved(k, pid) =>
        MovePcr(m, k, pid, g);
        OneTakes(m.all, k, e, vs, TakenIn(m.all));
    }
  }

  lemma NoneFollows(m: Mux, e: Event, vs: seq<View>)
    requires vs == Views(m.all) && (e.TsCame? || e.TdtCame? || e.SectionCame? || e.EitCame? || e.PcrMoved?)
    ensures FollowsAll(m.globalRemap, e, vs, Views(m.all))
  {
  }

  method StepTimer(m: Mux, e: Event, ghost g: Setup)
    requires e.TimerFired?
    requires Sound(m) && SetUp(m, g) && Regular(m.dup, m.outputs, g, e)
    modifies m, m.all, m.blocks, set o | o in m.all :: o.tables.newpids, set o | o in m.all :: o.tables.freepids
    ensures SetUp(m, g)
    ensures forall c :: c in m.blocks ==> c in old(m.blocks) || fresh(c)
    ensures FollowsAll(m.globalRemap, e, old(Views(m.all)), Views(m.all))
    ensures TakesAll(e, m.all, old(TakenIn(m.all)), TakenIn(m.all))
    ensures Sound(m)
  {
    hide TakenIn, TakesAll, Views, Sound, SetUp, FollowsAll, Mux.AllSentNow;
    ghost var vs := Views(m.all);
    FireTimer(m, g);
    TimerFollows(m, vs, old(AllWires(m.all)));
    NoneTakes(e, m.all, TakenIn(m.all));
  }

  method StepMapped(m: Mux, e: Event, ghost g: Setup)
    requires e.Mapped?
    requires Sound(m) && SetUp(m, g) && Regular(m.dup, m.outputs, g, e)
    modifies m, m.all, m.blocks, set o | o in m.all :: o.tables.newpids, set o | o in m.all :: o.tables.freepids
    ensures SetUp(m, g)
    ensures forall c :: c in m.blocks ==> c in old(m.blocks) || fresh(c)
    ensures FollowsAll(m.globalRemap, e, old(Views(m.all)), Views(m.all))
    ensures TakesAll(e, m.all, old(TakenIn(m.all)), TakenIn(m.all))
    ensures Sound(m)
  {
    hide TakenIn, TakesAll, Takes, Regular, Views, Sound, SetUp, AllFit, TableOf, FollowsAll, Follows, ViewOf, Wants, Streams, OnlyAt;
    RegularOutput(m.dup, m.outputs, g, e);
    Sizes(m);
    ghost var vs, v := Views(m.all), Views(m.all)[e.output + 1];
    MappedFollows(m.globalRemap, e, v);
    Remap(m, e.output, e.pmt, e.sid, e.newSid, e.pids, e.anyType, e.ecm, e.r, g);
    OneViewFollows(m.globalRemap, e.output, e, vs, Views(m.all));
    NoneTakes(e, m.all, TakenIn(m.all));
  }

  method StepOpened(m: Mux, e: Event, ghost g: Setup)
    requires e.Opened?
    requires Sound(m) && SetUp(m, g) && Regular(m.dup, m.outputs, g, e)
    modifies m, m.all, m.blocks, set o | o in m.all :: o.tables.newpids, set o | o in m.all :: o.tables.freepids
    ensures SetUp(m, g)
    ensures forall c :: c in m.blocks ==> c in old(m.blocks) || fresh(c)
    ensures FollowsAll(m.globalRemap, e, old(Views(m.all)), Views(m.all))
    ensures TakesAll(e, m.all, old(TakenIn(m.all)), TakenIn(m.all))
    ensures Sound(m)
  {
    hide TakenIn, TakesAll, Takes, Regular, Views, Sound, SetUp, AllFit, TableOf, FollowsAll, Follows, ViewOf, Wants, Streams, OnlyAt;
    RegularOutput(m.dup, m.outputs, g, e);
    Sizes(m);
    ghost var taken := TakenIn(m.all);
    ghost var vs := Views(m.all);
    OpenOne(m, e.output, e.remap, e.passthrough, g);
    OpenedAll(m.globalRemap, m.all, e, vs, Views(m.all), taken, TakenIn(m.all));
  }

  lemma OpenedAll(globalRemap: bool, os: seq<Output>, e: Event, vs: seq<View>, vs': seq<View>, ts: seq<Intake>, ts': seq<Intake>)
    requires e.Opened? && e.output + 1 < |vs| == |ts| == |os| && OnlyAt(vs, vs', e.output + 1) && OnlyAt(ts, ts', e.output + 1)
    requires vs'[e.output + 1] == vs[e.output + 1] || vs'[e.output + 1] == View([], Unused(), e.remap)
    requires var v' := ts'[e.output + 1]; v' == ts[e.output + 1] || v' == Intake([], None, v'.eitCc, 0, true, e.passthrough)
    ensures FollowsAll(globalRemap, e, vs, vs') && TakesAll(e, os, ts, ts')
  {
    hide FollowsAll, Follows, TakesAll, Takes;
    OpenedFollows(globalRemap, e, vs[e.output + 1]);
    OneViewFollows(globalRemap, e.output, e, vs, vs');
    OpenedTakes(e, os, ts[e.output + 1], ts'[e.output + 1]);
    OneTakes(os, e.output, e, ts, ts');
  }

  method StepClosed(m: Mux, e: Event, ghost g: Setup)
    requires e.Closed?
    requires Sound(m) && SetUp(m, g) && Regular(m.dup, m.outputs, g, e)
    modifies m, m.all, m.blocks, set o | o in m.all :: o.tables.newpids, set o | o in m.all :: o.tables.freepids
    ensures SetUp(m, g)
    ensures forall c :: c in m.blocks ==> c in old(m.blocks) || fresh(c)
    ensures FollowsAll(m.globalRemap, e, old(Views(m.all)), Views(m.all))
    ensures TakesAll(e, m.all, old(TakenIn(m.all)), TakenIn(m.all))
    ensures Sound(m)
  {
    hide TakenIn, TakesAll, Takes, Regular, Views, Sound, SetUp, AllFit, TableOf, FollowsAll, Follows, ViewOf, Wants, Streams, OnlyAt;
    RegularOutput(m.dup, m.outputs, g, e);
    Sizes(m);
    ghost var taken := TakenIn(m.all);
    ghost var vs := Views(m.all);
    CloseOne(m, e.output, g);
    ClosedAll(m.globalRemap, m.all, e, vs, Views(m.all), taken, TakenIn(m.all));
  }

  lemma ClosedAll(globalRemap: bool, os: seq<Output>, e: Event, vs: seq<View>, vs': seq<View>, ts: seq<Intake>, ts': seq<Intake>)
    requires e.Closed? && e.output + 1 < |vs| == |ts| == |os| && OnlyAt(vs, vs', e.output + 1) && OnlyAt(ts, ts', e.output + 1)
    requires vs'[e.output + 1] == vs[e.output + 1].(wires := [])
    requires ts'[e.output + 1] == ts[e.output + 1].(puts := [], carry := None, valid := false)
    ensures FollowsAll(globalRemap, e, vs, vs') && TakesAll(e, os, ts, ts')
  {
    hide FollowsAll, Follows, TakesAll, Takes;
    ClosedFollows(globalRemap, e, vs[e.output + 1]);
    OneViewFollows(globalRemap, e.output, e, vs, vs');
    ClosedTakes(e, os, ts[e.output + 1], ts'[e.output + 1]);
    OneTakes(os, e.output, e, ts, ts');
  }

  lemma RegularOutput(dup: Output, outputs: seq<Output>, g: Setup, e: Event)
    requires Regular(dup, outputs, g, e) && (e.Mapped? || e.Opened? || e.Closed?)
    ensures e.output < |outputs|
    ensures e.Mapped? ==> RemapOk(e.r) && IsPid(e.pmt.pcrPid) && PidsOk(e.pmt.es) && AllFit(Wants(e.r, Streams(e.pmt.es, e.pids, e.anyType)))
    ensures e.Opened? ==> (e.remap ==> outputs[e.output] in g.rewriting) && (e.passthrough ==> outputs[e.output] in g.passing)
  {
  }

  lemma Sizes(m: Mux)
    requires Sound(m)
    ensures |m.all| == |m.outputs| + 1
  {
  }

  lemma SoundInv(m: Mux)
    requires Sound(m)
    ensures m.Inv() && |m.all| == |m.outputs| + 1 && forall k :: 0 <= k < |m.outputs| ==> m.all[k + 1] == m.outputs[k]
    ensures forall i, j :: 0 <= i < |m.all| && 0 <= j < |m.all| && i != j ==> m.all[i] != m.all[j]
  {
  }

  /** A TS packet as a datagram shows it: on the PID that the table in force gives, if PIDs are rewritten. */
  function OnPid(ts: Ts, d: Dispatch): Ts {
    if d.remapping && ts.pid < |d.newpids| && IsPid(d.newpids[ts.pid]) then ts.(pid := d.newpids[ts.pid]) else ts
  }

  /** What a receiver takes from datagrams, one after the other ... */
  function ReadAll(wires: seq<Dispatch>): seq<Ts> {
    if wires == [] then [] else Shown(wires[0].wire) + ReadAll(wires[1..])
  }

  /** ... and the datagram that each TS packet was in. */
  function Under(wires: seq<Dispatch>): (ds: seq<Dispatch>)
    ensures |ds| == |ReadAll(wires)|
  {
    if wires == [] then [] else seq(|Shown(wires[0].wire)|, _ => wires[0]) + Under(wires[1..])
  }

  /** Since an output was set up, a receiver of its datagrams gets what was put into it, in order, each TS packet on its
      PID under the table of that time, as far as it does not wait in the queue, whose blocks still hold the rest.
      Every datagram has its headers, with sequence numbers that step by one, and padding at the end, and none is sent
      before the timestamp of its packet and the latency say so. */
  ghost predicate Relayed(o: Output, blocks: set<Block>)
    reads o`wires, o`ops, o`seqnum0, o`packets, blocks`ts
  {
    var got, under, puts, waiting := ReadAll(o.wires), Under(o.wires), PacketQueue.Puts(o.ops), Flat(o.Log().queue);
    && |got| + |waiting| == |puts|
    && (forall k :: 0 <= k < |got| ==> got[k] == OnPid(puts[k].ts, under[k]))
    && (forall k :: 0 <= k < |waiting| ==> waiting[k] == puts[|got| + k])
    && SameContent(o.packets, o.Log().queue, blocks)
    && |o.wires| == |o.Log().sent|
    && (forall n :: 0 <= n < |o.wires| ==>
          o.Log().sent[n].dts + o.latency <= o.wires[n].clock && |Shown(o.wires[n].wire)| == |o.Log().sent[n].items|)
    && (forall n :: 0 <= n < |o.wires| ==>
          Framed(o.wires[n].wire, o.raw, o.udp, (o.seqnum0 + n) % 0x1_0000, o.wires[n].clock, |Shown(o.wires[n].wire)|, o.Room()))
  }

  /** All outputs relay what they are given, and those that do not rewrite PIDs leave them as they are. */
  ghost predicate InFull(m: Mux, g: Setup)
    reads m, m.all, m.blocks
  {
    forall o :: o in m.all ==>
      && Relayed(o, m.blocks)
      && (o !in g.rewriting ==>
            forall k :: 0 <= k < |ReadAll(o.wires)| && k < |PacketQueue.Puts(o.ops)| ==> ReadAll(o.wires)[k] == PacketQueue.Puts(o.ops)[k].ts)
  }

  ghost predicate Reads(d: Dispatch, items: seq<Item>) {
    |Shown(d.wire)| == |items| && forall i :: 0 <= i < |items| ==> Shown(d.wire)[i] == OnPid(items[i].ts, d)
  }

  lemma SpelledReads(d: Dispatch, raw: bool, udp: bool, seqnum: int, seqnum': int, items: seq<Item>, room: int)
    requires d.Spells(raw, udp, seqnum, items, room) && (!udp ==> seqnum' == seqnum)
    ensures Reads(d, items) && Framed(d.wire, raw, udp, seqnum', d.clock, |Shown(d.wire)|, room)
  {
    hide Image, Shown;
    ImageReads(raw, udp, seqnum, d.clock, Announced(items, d.remapping, d.newpids), room);
  }

  lemma {:induction false} ReadInOrder(wires: seq<Dispatch>, sent: seq<Packet<Item>>)
    requires |wires| == |sent| && forall n :: 0 <= n < |wires| ==> Reads(wires[n], sent[n].items)
    ensures |ReadAll(wires)| == |Flat(sent)|
    ensures forall k :: 0 <= k < |ReadAll(wires)| ==> ReadAll(wires)[k] == OnPid(Flat(sent)[k].ts, Under(wires)[k])
  {
    hide Shown, OnPid;
    if wires != [] {
      ReadInOrder(wires[1..], sent[1..]);
      var n := |sent[0].items|;
      forall k | 0 <= k < |ReadAll(wires)| ensures ReadAll(wires)[k] == OnPid(Flat(sent)[k].ts, Under(wires)[k]) {
        if k < n {
          assert ReadAll(wires)[k] == Shown(wires[0].wire)[k] && Under(wires)[k] == wires[0];
        } else {
          assert ReadAll(wires)[k] == ReadAll(wires[1..])[k - n] && Under(wires)[k] == Under(wires[1..])[k - n];
        }
      }
    }
  }

  /** Every TS packet was in one of the datagrams. */
  lemma {:induction false} UnderOne(wires: seq<Dispatch>, k: nat)
    requires k < |Under(wires)|
    ensures Under(wires)[k] in wires
  {
    hide Shown;
    var n := |Shown(wires[0].wire)|;
    if k >= n {
      UnderOne(wires[1..], k - n);
      assert Under(wires)[k] == Under(wires[1..])[k - n];
    }
  }

  lemma SpelledRelayed(o: Output, blocks: set<Block>)
    requires o.Spelled() && SameContent(o.packets, o.Log().queue, blocks)
    ensures Relayed(o, blocks)
    ensures |ReadAll(o.wires)| <= |PacketQueue.Puts(o.ops)|
  {
    hide PacketQueue.Run, PacketQueue.Puts, Framed, Shown, SameContent, ReadAll, Under, OnPid, Dispatch.Spells, Flat;
    var sent := o.Log().sent;
    forall n | 0 <= n < |o.wires|
      ensures Reads(o.wires[n], sent[n].items)
      ensures Framed(o.wires[n].wire, o.raw, o.udp, (o.seqnum0 + n) % 0x1_0000, o.wires[n].clock, |Shown(o.wires[n].wire)|, o.Room())
    {
      SpelledReads(o.wires[n], o.raw, o.udp, SeqOf(o.udp, o.seqnum0, n), (o.seqnum0 + n) % 0x1_0000, sent[n].items, o.Room());
    }
    ReadInOrder(o.wires, sent);
    FirstInFirstOut(o.ops, o.Room(), o.retention);
  }

  lemma PlainUnchanged(o: Output, blocks: set<Block>)
    requires Relayed(o, blocks) && forall n :: 0 <= n < |o.wires| ==> !o.wires[n].remapping
    ensures forall k :: 0 <= k < |ReadAll(o.wires)| ==> ReadAll(o.wires)[k] == PacketQueue.Puts(o.ops)[k].ts
  {
    hide PacketQueue.Run, PacketQueue.Puts, Framed, Shown, SameContent, ReadAll, Under, Flat;
    forall k | 0 <= k < |ReadAll(o.wires)| ensures ReadAll(o.wires)[k] == PacketQueue.Puts(o.ops)[k].ts {
      UnderOne(o.wires, k);
    }
  }

  lemma SoundInFull(m: Mux, g: Setup)
    requires Sound(m) && Unrewritten(m.globalRemap, m.all, g, Views(m.all))
    ensures InFull(m, g)
  {
    hide Spelling, SameContent, PacketQueue.Run, PacketQueue.Puts, Flat, Mux.Inv, Mux.EitFaithful, TablesValid, TablesApart, Relayed, ReadAll;
    forall o | o in m.all
      ensures Relayed(o, m.blocks)
      ensures o !in g.rewriting ==>
        forall k :: 0 <= k < |ReadAll(o.wires)| && k < |PacketQueue.Puts(o.ops)| ==> ReadAll(o.wires)[k] == PacketQueue.Puts(o.ops)[k].ts
    {
      var i :| 0 <= i < |m.all| && m.all[i] == o;
      SpelledRelayed(o, m.blocks);
      if o !in g.rewriting {
        assert Views(m.all)[i] == ViewOf(o);
        PlainUnchanged(o, m.blocks);
      }
    }
  }

  /** Whatever comes, in whatever order: the counts are right, no wake-up is lost, and what every output sends
      is what was put into it, on its own PIDs if it does not rewrite them.  Event by event, datagrams leave when the
      timer goes off, under the PID table that was written last, and what is put is what the event brings. */
  method Run(dup: Output, outputs: seq<Output>, globalRemap: bool, now: int, events: seq<Event>, ghost g: Setup)
    returns (m: Mux, ghost trace: seq<seq<View>>, ghost fed: seq<seq<Intake>>)
    requires NoDup([dup] + outputs) && TablesApart([dup] + outputs) && TablesValid([dup] + outputs)
    requires forall o :: o in [dup] + outputs ==>
      o.Ok() && o.packets == [] && o.eit == null && o.carry == None && o.wires == [] && o.Spelled()
    requires forall o :: o in [dup] + outputs ==> (globalRemap || o.remap ==> o in g.rewriting) && (o.passthrough ==> o in g.passing)
    requires forall i :: 0 <= i < |events| ==> Regular(dup, outputs, g, events[i])
    modifies [dup] + outputs, set o | o in [dup] + outputs :: o.tables.newpids, set o | o in [dup] + outputs :: o.tables.freepids
    ensures Sound(m) && Accounted(m) && InFull(m, g)
    ensures Traced(globalRemap, events, trace)
    ensures trace[0] == old(Views([dup] + outputs)) && trace[|events|] == Views([dup] + outputs)
    ensures Fed(events, [dup] + outputs, fed)
    ensures fed[0] == old(TakenIn([dup] + outputs)) && fed[|events|] == TakenIn([dup] + outputs)
  {
    hide Sound, SetUp, Accounted, InFull, Regular, TablesApart, TablesValid, Output.Ok, Output.Spelled, NoDup, Views, TakenIn, Chronicle;
    m := Begin(dup, outputs, globalRemap, now, g);
    trace, fed := [Views(m.all)], [TakenIn(m.all)];
    FirstPage(m, g, trace, fed);
    var i := 0;
    while i < |events|
      invariant 0 <= i <= |events| && fresh(m) && m.dup == dup && m.outputs == outputs && m.all == [dup] + outputs && m.globalRemap == globalRemap
      invariant SetUp(m, g)
      invariant forall c :: c in m.blocks ==> fresh(c)
      invariant Sound(m)
      invariant |trace| == |fed| == i + 1 && Chronicle(m, g, events[..i], trace, fed)
      invariant trace[0] == old(Views([dup] + outputs)) && fed[0] == old(TakenIn([dup] + outputs))
    {
      trace, fed := StepTold(m, events[i], g, events[..i], trace, fed);
      assert events[..i + 1] == events[..i] + [events[i]];
      i := i + 1;
    }
    assert events[..i] == events;
    LastPage(m, g, events, trace, fed);
    SoundAccounted(m);
    SoundInFull(m, g);
  }

  /** What happened so far, and where it led. */
  ghost predicate Chronicle(m: Mux, g: Setup, events: seq<Event>, trace: seq<seq<View>>, fed: seq<seq<Intake>>)
    reads m.all, set o | o in m.all :: o.tables.newpids
  {
    && Traced(m.globalRemap, events, trace) && Fed(events, m.all, fed)
    && trace[|events|] == Views(m.all) && fed[|events|] == TakenIn(m.all)
    && Unrewritten(m.globalRemap, m.all, g, trace[|events|])
  }

  method StepTold(m: Mux, e: Event, ghost g: Setup, ghost events: seq<Event>, ghost trace: seq<seq<View>>, ghost fed: seq<seq<Intake>>)
    returns (ghost trace': seq<seq<View>>, ghost fed': seq<seq<Intake>>)
    requires Sound(m) && SetUp(m, g) && Regular(m.dup, m.outputs, g, e) && Chronicle(m, g, events, trace, fed)
    modifies m, m.all, m.blocks, set o | o in m.all :: o.tables.newpids, set o | o in m.all :: o.tables.freepids
    ensures SetUp(m, g)
    ensures forall c :: c in m.blocks ==> c in old(m.blocks) || fresh(c)
    ensures Sound(m)
    ensures Chronicle(m, g, events + [e], trace', fed')
    ensures |trace'| == |trace| + 1 && |fed'| == |fed| + 1
    ensures |trace| > 0 && |fed| > 0 ==> trace'[0] == trace[0] && fed'[0] == fed[0]
  {
    hide Sound, SetUp, Regular, Views, TakenIn, Traced, Fed, FollowsAll, TakesAll, Unrewritten;
    LengthsKnown(m, events, trace, fed);
    ghost var vs, taken := Views(m.all), TakenIn(m.all);
    Step(m, e, g);
    FlagsSetUp(m, g);
    trace', fed' := trace + [Views(m.all)], fed + [TakenIn(m.all)];
    StaysUnrewritten(m.globalRemap, m.all, g, e, vs, Views(m.all));
    TracedNext(m.globalRemap, events, e, trace, Views(m.all));
    FedNext(events, m.all, e, fed, TakenIn(m.all));
  }

  lemma LengthsKnown(m: Mux, events: seq<Event>, trace: seq<seq<View>>, fed: seq<seq<Intake>>)
    requires Traced(m.globalRemap, events, trace) && Fed(events, m.all, fed)
    ensures |trace| == |fed| == |events| + 1
  {
  }

  lemma FirstPage(m: Mux, g: Setup, trace: seq<seq<View>>, fed: seq<seq<Intake>>)
    requires SetUp(m, g) && (forall o :: o in m.all ==> o.wires == []) && trace == [Views(m.all)] && fed == [TakenIn(m.all)]
    ensures Chronicle(m, g, [], trace, fed)
  {
    hide Views, TakenIn, Unrewritten;
    UnrewrittenAtFirst(m, g);
  }

  lemma LastPage(m: Mux, g: Setup, events: seq<Event>, trace: seq<seq<View>>, fed: seq<seq<Intake>>)
    requires Chronicle(m, g, events, trace, fed)
    ensures Traced(m.globalRemap, events, trace) && Fed(events, m.all, fed) && |trace| == |fed| == |events| + 1
    ensures trace[|events|] == Views(m.all) && fed[|events|] == TakenIn(m.all)
    ensures Unrewritten(m.globalRemap, m.all, g, Views(m.all))
  {
  }
}
