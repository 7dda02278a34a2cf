/** The program and PID tables of the demultiplexer: reference counts and filters per PID, the outputs
    registered on each PID, and the slots that remember the programs of the PAT and their PMTs. */
module Programs {
  import opened Common
  import opened PidMap

  const PAT_PID := 0x00
  const NIT_PID := 0x10
  const SDT_PID := 0x11
  const EIT_PID := 0x12
  const RST_PID := 0x13
  const TDT_PID := 0x14

  /** ts_pid_t; `outs` is pp_outputs, whose entries may be holes.  Outputs are known by their index. */
  datatype PidState = PidState(refcount: int, psi: int, fd: int, outs: seq<Option<nat>>)

  // ----- the outputs of a PID -----

  function Count(outs: seq<Option<nat>>): nat {
    if outs == [] then 0 else Count(outs[..|outs| - 1]) + (if outs[|outs| - 1].Some? then 1 else 0)
  }

  /** No output is registered twice. */
  predicate Once(outs: seq<Option<nat>>) {
    forall i, j :: 0 <= i < j < |outs| && outs[i].Some? ==> outs[i] != outs[j]
  }

  function First(outs: seq<Option<nat>>, x: Option<nat>): (i: nat)
    requires x in outs
    ensures i < |outs| && outs[i] == x && x !in outs[..i]
  {
    if outs[0] == x then 0
    else
      assert outs == [outs[0]] + outs[1..];
      var i := First(outs[1..], x);
      assert outs[..i + 1] == [outs[0]] + outs[1..][..i];
      i + 1
  }

  /** Where a new output goes: the first hole, or the end. */
  function Enrolled(outs: seq<Option<nat>>, o: nat): seq<Option<nat>> {
    if Some(o) in outs then outs
    else if None in outs then outs[First(outs, None) := Some(o)]
    else outs + [Some(o)]
  }

  function Dismissed(outs: seq<Option<nat>>, o: nat): seq<Option<nat>> {
    if Some(o) in outs then outs[First(outs, Some(o)) := None] else outs
  }

  lemma {:induction false} CountUpdate(outs: seq<Option<nat>>, i: nat, x: Option<nat>)
    requires i < |outs|
    ensures Count(outs[i := x]) + (if outs[i].Some? then 1 else 0) == Count(outs) + (if x.Some? then 1 else 0)
  {
    var n := |outs| - 1;
    if i < n {
      assert outs[i := x][..n] == outs[..n][i := x];
      CountUpdate(outs[..n], i, x);
    } else {
      assert outs[i := x][..n] == outs[..n];
    }
  }

  lemma EnrolledOk(outs: seq<Option<nat>>, o: nat)
    requires Once(outs)
    ensures Once(Enrolled(outs, o))
    ensures Count(Enrolled(outs, o)) == Count(outs) + (if Some(o) in outs then 0 else 1)
    ensures forall x: nat :: Some(x) in Enrolled(outs, o) <==> Some(x) in outs || x == o
  {
    if Some(o) !in outs {
      if None in outs {
        HoleFilled(outs, First(outs, None), o);
      } else {
        Appended(outs, o);
      }
    }
  }

  lemma HoleFilled(outs: seq<Option<nat>>, i: nat, o: nat)
    requires Once(outs) && i < |outs| && outs[i] == None && Some(o) !in outs
    ensures var outs' := outs[i := Some(o)];
      && Once(outs') && Count(outs') == Count(outs) + 1
      && forall x: nat :: Some(x) in outs' <==> Some(x) in outs || x == o
  {
    var outs' := outs[i := Some(o)];
    CountUpdate(outs, i, Some(o));
    hide Count;
    assert outs'[i] == Some(o);
    forall x: nat | Some(x) in outs ensures Some(x) in outs' {
      var j :| 0 <= j < |outs| && outs[j] == Some(x);
      assert outs'[j] == Some(x);
    }
  }

  lemma Appended(outs: seq<Option<nat>>, o: nat)
    requires Once(outs) && Some(o) !in outs
    ensures var outs' := outs + [Some(o)];
      && Once(outs') && Count(outs') == Count(outs) + 1
      && forall x: nat :: Some(x) in outs' <==> Some(x) in outs || x == o
  {
    var outs' := outs + [Some(o)];
    assert outs'[..|outs|] == outs;
  }

  lemma DismissedOk(outs: seq<Option<nat>>, o: nat)
    requires Once(outs)
    ensures Once(Dismissed(outs, o))
    ensures Count(outs) == Count(Dismissed(outs, o)) + (if Some(o) in outs then 1 else 0)
    ensures forall x: nat :: Some(x) in Dismissed(outs, o) <==> Some(x) in outs && x != o
  {
    if Some(o) in outs {
      var i, outs' := First(outs, Some(o)), Dismissed(outs, o);
      CountUpdate(outs, i, None);
      forall x: nat | Some(x) in outs && x != o ensures Some(x) in outs' {
        var j :| 0 <= j < |outs| && outs[j] == Some(x);
        assert outs'[j] == Some(x);
      }
    }
  }

  // ----- one PID -----

  function Extra(pid: int): int {
    if pid == RST_PID || pid == TDT_PID then 1 else 0
  }

  /** The reference count is what it should be, and only outputs below n are registered, once each. */
  ghost predicate Counted(s: PidState, pid: int, n: nat, tuner: Tuner) {
    && s.refcount == s.psi + Count(s.outs) + Extra(pid)
    && Once(s.outs)
    && (forall o: nat :: Some(o) in s.outs ==> o < n)
    && (tuner.willing && !tuner.budget && s.refcount > 0 ==> s.fd != -1)
  }

  /** The device: in budget mode one filter lets everything through; a willing device grants every filter. */
  datatype Tuner = Tuner(budget: bool, willing: bool)

  /** A filter is open only while somebody wants the PID; from a willing device it is open exactly then. */
  predicate FilterOk(s: PidState, tuner: Tuner) {
    && -1 <= s.fd && (s.fd != -1 ==> !tuner.budget && s.refcount > 0)
    && (tuner.willing && !tuner.budget && s.refcount > 0 ==> s.fd != -1)
  }

  /** What SetPID does; the filter may fail to open, unless the device is willing. */
  predicate Raised(s: PidState, s': PidState, tuner: Tuner) {
    && s'.refcount == s.refcount + 1 && s'.psi == s.psi && s'.outs == s.outs
    && if !tuner.budget && s'.refcount != 0 && s.fd == -1 then -1 <= s'.fd && (tuner.willing ==> s'.fd != -1) else s'.fd == s.fd
  }

  predicate Lowered(s: PidState, s': PidState, tuner: Tuner) {
    && s'.refcount == s.refcount - 1 && s'.psi == s.psi && s'.outs == s.outs
    && s'.fd == if !tuner.budget && s'.refcount == 0 then -1 else s.fd
  }

  predicate Started(s: PidState, s': PidState, o: nat, tuner: Tuner) {
    if Some(o) in s.outs then s' == s else Raised(s.(outs := Enrolled(s.outs, o)), s', tuner)
  }

  predicate Stopped(s: PidState, s': PidState, o: nat, tuner: Tuner) {
    if Some(o) in s.outs then Lowered(s.(outs := Dismissed(s.outs, o)), s', tuner) else s' == s
  }

  lemma StartedKeeps(s: PidState, s': PidState, o: nat, tuner: Tuner, pid: int, n: nat)
    requires Started(s, s', o, tuner) && Counted(s, pid, n, tuner) && o < n
    ensures Counted(s', pid, n, tuner) && s'.psi == s.psi
    ensures forall x: nat :: Some(x) in s'.outs <==> Some(x) in s.outs || x == o
    ensures s.psi >= 0 && FilterOk(s, tuner) ==> FilterOk(s', tuner)
  {
    EnrolledOk(s.outs, o);
  }

  lemma StoppedKeeps(s: PidState, s': PidState, o: nat, tuner: Tuner, pid: int, n: nat)
    requires Stopped(s, s', o, tuner) && Counted(s, pid, n, tuner)
    ensures Counted(s', pid, n, tuner) && s'.psi == s.psi
    ensures forall x: nat :: Some(x) in s'.outs <==> Some(x) in s.outs && x != o
    ensures s.psi >= 0 && FilterOk(s, tuner) ==> FilterOk(s', tuner)
  {
    DismissedOk(s.outs, o);
  }

  // ----- values of the tables -----

  datatype AnySection = PmtSection(version: int, pmt: Pmt)

  /** A PMT section; PIDs have 13 bits. */
  type PmtSection = sec: AnySection | PidsOk(sec.pmt.es) && IsPid(sec.pmt.pcrPid)
    witness PmtSection(0, Pmt(0, 0, [], []))

  /** sid_t; a slot with number 0 is free. */
  datatype Slot = Slot(sid: int, pmtPid: Pid, pmt: Option<PmtSection>)

  const FREE := Slot(0, 0, None)

  /** The part of an output that decides what it is given. */
  datatype Out = Out(valid: bool, sid: int, pids: seq<Pid>, passthrough: bool, pcrPid: int)

  datatype Entry = Entry(program: int, pid: Pid)

  /** A PAT; the program loops of its sections, one after the other. */
  datatype Pat = Pat(version: int, tsid: int, entries: seq<Entry>)

  datatype State = State(pids: seq<PidState>, slots: seq<Slot>, outs: seq<Out>, pat: Option<Pat>)

  predicate Reg(s: State, p: int, o: nat) {
    0 <= p < |s.pids| && Some(o) in s.pids[p].outs
  }

  function Lookup(slots: seq<Slot>, sid: int): (k: Option<nat>)
    ensures k.Some? ==> k.value < |slots| && slots[k.value].sid == sid
    ensures k.None? ==> forall i :: 0 <= i < |slots| ==> slots[i].sid != sid
  {
    if slots == [] then None
    else if slots[0].sid == sid then Some(0)
    else match Lookup(slots[1..], sid) case Some(i) => Some(i + 1) case None => None
  }

  lemma {:induction false} LookupIs(slots: seq<Slot>, sid: int, k: nat)
    requires k < |slots| && slots[k].sid == sid && forall i :: 0 <= i < k ==> slots[i].sid != sid
    ensures Lookup(slots, sid) == Some(k)
  {
    if k > 0 { LookupIs(slots[1..], sid, k - 1); }
  }

  /** The elementary PIDs that an output without a PID list takes. */
  function Selected(es: seq<Es>, anyType: bool): (r: seq<int>)
    ensures PidsOk(es) ==> forall i :: 0 <= i < |r| ==> IsPid(r[i])
  {
    if es == [] then []
    else Selected(es[..|es| - 1], anyType) + (if WouldBeSelected(es[|es| - 1], anyType) then [es[|es| - 1].pid] else [])
  }

  lemma SelectedNone(anyType: bool)
    ensures Selected([], anyType) == []
  {
  }

  lemma SelectedStep(es: seq<Es>, anyType: bool, j: nat)
    requires j < |es|
    ensures Selected(es[..j + 1], anyType) == Selected(es[..j], anyType) + (if WouldBeSelected(es[j], anyType) then [es[j].pid] else [])
  {
    assert es[..j + 1][..j] == es[..j];
  }

  /** mark_pmt_pids */
  predicate Marked(pmt: Pmt, anyType: bool, p: int) {
    p in Selected(pmt.es, anyType) || (p == pmt.pcrPid && p != PADDING_PID)
  }

  /** GetPIDS: the PIDs wanted, and the PCR PID if it is wanted only for its PCR. */
  function WantedPids(slots: seq<Slot>, sid: int, list: seq<Pid>, anyType: bool): (r: (seq<Pid>, int)) {
    if sid == 0 then (list, 0)
    else match Lookup(slots, sid)
      case None => (list, 0)
      case Some(k) =>
        match slots[k].pmt
        case None => (list, 0)
        case Some(sec) =>
          var base: seq<Pid> := if list != [] then list else Selected(sec.pmt.es, anyType);
          var pcr := sec.pmt.pcrPid;
          if pcr != PADDING_PID && pcr != slots[k].pmtPid && pcr !in base then (base + [pcr], pcr) else (base, 0)
  }

  lemma {:induction false} SelectedIs(es: seq<Es>, anyType: bool, p: int)
    ensures p in Selected(es, anyType) <==> exists e :: e in es && e.pid == p && WouldBeSelected(e, anyType)
  {
    if es != [] {
      var init, last := es[..|es| - 1], es[|es| - 1];
      SelectedIs(init, anyType, p);
      assert es == init + [last];
    }
  }

  /** An output whose program has a PMT wants the PIDs of its list, or else those of the streams of a kind that is taken,
      and besides the PCR, if there is one and it is not on the PMT PID; without a PMT it wants its list. */
  lemma WantedIs(slots: seq<Slot>, sid: int, list: seq<Pid>, anyType: bool, p: int)
    ensures sid == 0 || Lookup(slots, sid).None? || slots[Lookup(slots, sid).value].pmt.None? ==> WantedPids(slots, sid, list, anyType) == (list, 0)
    ensures sid != 0 && Lookup(slots, sid).Some? && slots[Lookup(slots, sid).value].pmt.Some? ==>
      var slot, r := slots[Lookup(slots, sid).value], WantedPids(slots, sid, list, anyType);
      var pmt := slot.pmt.value.pmt;
      var listed := if list != [] then p in list else exists e :: e in pmt.es && e.pid == p && WouldBeSelected(e, anyType);
      && (p in r.0 <==> listed || (p == pmt.pcrPid && p != 8191 && p != slot.pmtPid))
      && (r.1 == p != 0 <==> p == pmt.pcrPid && p != 0 && !listed && p != 8191 && p != slot.pmtPid)
  {
    if sid != 0 && Lookup(slots, sid).Some? && slots[Lookup(slots, sid).value].pmt.Some? {
      SelectedIs(slots[Lookup(slots, sid).value].pmt.value.pmt.es, anyType, p);
    }
    hide Selected, WouldBeSelected;
  }

  /** An output that has not both a program and a list of PIDs. */
  predicate Clean(out: Out) {
    out.sid == 0 || out.pids == []
  }

  predicate WantsPid(slots: seq<Slot>, anyType: bool, out: Out, p: int) {
    p in WantedPids(slots, out.sid, out.pids, anyType).0
  }

  /** The PCR comes on a PID that is not the program's PMT PID, or is selected anyway. */
  predicate Proper(sec: PmtSection, pmtPid: int, anyType: bool) {
    sec.pmt.pcrPid == pmtPid && pmtPid != PADDING_PID ==> pmtPid in Selected(sec.pmt.es, anyType)
  }

  /** Exactly then a marked PID is a wanted PID. */
  lemma MarkedIsWanted(slots: seq<Slot>, k: nat, anyType: bool, out: Out)
    requires k < |slots| && out.sid != 0 && out.pids == [] && Lookup(slots, out.sid) == Some(k) && slots[k].pmt.Some?
    ensures (forall p :: WantsPid(slots, anyType, out, p) <==> Marked(slots[k].pmt.value.pmt, anyType, p))
       <==> Proper(slots[k].pmt.value, slots[k].pmtPid, anyType)
  {
    var sec := slots[k].pmt.value;
    if !Proper(sec, slots[k].pmtPid, anyType) {
      assert Marked(sec.pmt, anyType, sec.pmt.pcrPid) && !WantsPid(slots, anyType, out, sec.pmt.pcrPid);
    }
  }

  // ----- what is kept -----

  /** The reference count of every PID is the PSI count, plus the outputs registered, plus one on the
      PIDs of RST and TDT, and from a willing device every PID that is referenced has its filter. */
  ghost predicate Counts(s: State, tuner: Tuner) {
    && |s.pids| == MAX_PIDS
    && forall p :: 0 <= p < MAX_PIDS ==> Counted(s.pids[p], p, |s.outs|, tuner)
  }

  predicate Filters(s: State, tuner: Tuner) {
    forall p :: 0 <= p < |s.pids| ==> FilterOk(s.pids[p], tuner)
  }

  predicate HasSlot(slots: seq<Slot>, sid: int) {
    exists i :: 0 <= i < |slots| && slots[i].sid == sid
  }

  /** The live slots are the programs, one each. */
  ghost predicate SlotsAre(slots: seq<Slot>, programs: map<int, int>) {
    && 0 !in programs
    && (forall i, j :: 0 <= i < j < |slots| && slots[i].sid != 0 ==> slots[i].sid != slots[j].sid)
    && (forall i :: 0 <= i < |slots| && slots[i].sid != 0 ==> slots[i].sid in programs && slots[i].pmtPid == programs[slots[i].sid])
    && (forall n :: n in programs ==> HasSlot(slots, n))
  }

  /** Free slots have no PMT left. */
  predicate FreeEmpty(slots: seq<Slot>) {
    forall i :: 0 <= i < |slots| && slots[i].sid == 0 ==> slots[i] == FREE
  }

  function BasePsi(p: int): int {
    if p == PAT_PID || p == NIT_PID || p == SDT_PID || p == EIT_PID then 1 else 0
  }

  ghost function On(programs: map<int, int>, p: int): set<int> {
    set n | n in programs && programs[n] == p
  }

  ghost predicate PsiAre(s: State, programs: map<int, int>) {
    |s.pids| == MAX_PIDS && forall p :: 0 <= p < MAX_PIDS ==> s.pids[p].psi == BasePsi(p) + |On(programs, p)|
  }

  /** Outputs that are watched, each with the programs that it is given in the course of time. */
  type Watch = imap<nat, set<int>>

  /** Some watched output is given program `sid` at one time or another. */
  ghost predicate Followed(who: Watch, sid: int) {
    exists o :: o in who && sid in who[o]
  }

  ghost predicate Fit(out: Out, sids: set<int>) {
    Clean(out) && Closable(out) && (out.sid == 0 || out.sid in sids)
  }

  /** Every watched output is registered on exactly the PIDs it wants, the PMTs of the programs that
      watched outputs are given are proper, and if any output is watched, free slots are empty. */
  ghost predicate Served(s: State, anyType: bool, who: Watch) {
    && |s.pids| == MAX_PIDS
    && (forall o, p :: 0 <= o < |s.outs| && o in who && 0 <= p < MAX_PIDS ==> (Reg(s, p, o) <==> WantsPid(s.slots, anyType, s.outs[o], p)))
    && (forall i :: 0 <= i < |s.slots| && s.slots[i].pmt.Some? && Followed(who, s.slots[i].sid) ==> Proper(s.slots[i].pmt.value, s.slots[i].pmtPid, anyType))
    && (forall o :: 0 <= o < |s.outs| && o in who ==> Fit(s.outs[o], who[o]))
    && (who != imap[] ==> FreeEmpty(s.slots))
  }

  /** config_ReadFile marks configurations as valid, except the empty one it closes outputs with. */
  predicate Closable(out: Out) {
    !out.valid ==> out.sid == 0 && out.pids == []
  }

  // ----- steps -----

  predicate SameConfigs(outs: seq<Out>, outs': seq<Out>) {
    |outs'| == |outs| && forall o :: 0 <= o < |outs| ==> outs'[o] == outs[o].(pcrPid := outs'[o].pcrPid)
  }

  /** The state of a PID changed without harm to its counts. */
  ghost predicate Steady(s: PidState, s': PidState, pid: int, n: nat, tuner: Tuner) {
    && s'.psi == s.psi
    && (Counted(s, pid, n, tuner) ==> Counted(s', pid, n, tuner))
    && (Counted(s, pid, n, tuner) && s.psi >= 0 && FilterOk(s, tuner) ==> FilterOk(s', tuner))
  }

  /** Registrations changed, and the PCR PIDs of outputs, and nothing else. */
  ghost predicate Moves(s: State, s': State, tuner: Tuner) {
    && |s'.pids| == |s.pids| == MAX_PIDS && s'.slots == s.slots && s'.pat == s.pat && SameConfigs(s.outs, s'.outs)
    && forall p :: 0 <= p < MAX_PIDS ==> Steady(s.pids[p], s'.pids[p], p, |s.outs|, tuner)
  }

  lemma MovesThrough(a: State, b: State, c: State, tuner: Tuner)
    requires Moves(a, b, tuner) && Moves(b, c, tuner)
    ensures Moves(a, c, tuner)
  {
    hide Counted, FilterOk;
    forall p | 0 <= p < MAX_PIDS ensures Steady(a.pids[p], c.pids[p], p, |a.outs|, tuner) {
      assert Steady(a.pids[p], b.pids[p], p, |a.outs|, tuner) && Steady(b.pids[p], c.pids[p], p, |b.outs|, tuner);
    }
  }

  lemma MovesNot(s: State, tuner: Tuner)
    requires |s.pids| == MAX_PIDS
    ensures Moves(s, s, tuner)
  {
  }

  lemma CountsFollow(s: State, s': State, tuner: Tuner)
    requires Counts(s, tuner) && s'.pids == s.pids && |s'.outs| == |s.outs|
    ensures Counts(s', tuner)
  {
  }

  lemma PcrMoves(s: State, s': State, tuner: Tuner)
    requires Counts(s, tuner) && SameConfigs(s.outs, s'.outs) && s' == s.(outs := s'.outs)
    ensures Moves(s, s', tuner) && Counts(s', tuner)
  {
  }

  /** The output is given `pid` when the PMT of program `sid` brings it in ... */
  predicate Takes(out: Out, sid: int, pid: int, pcr: bool) {
    out.valid && out.sid == sid && (out.pids == [] || pid in out.pids || pcr)
  }

  /** An output that has a list without the PCR PID gets it all the same, for its PCR. */
  function PcrNoted(out: Out, sid: int, pid: int, pcr: bool): Out {
    if out.valid && out.sid == sid && out.pids != [] && pid !in out.pids && pcr then out.(pcrPid := pid) else out
  }

  /** ... and loses it when the PMT drops it. */
  predicate Drops(out: Out, sid: int) {
    out.valid && out.sid == sid && out.pids == []
  }

  /** The two bits of pid_map. */
  datatype Mark = Mark(inOld: bool, inNew: bool)

  function Or(m: Mark, isNew: bool): Mark {
    if isNew then m.(inNew := true) else m.(inOld := true)
  }

  /** Whether an output is registered on `pid` after a PMT of program `sid` came. */
  predicate RegAfter(reg: bool, out: Out, sid: int, pid: int, mark: Mark, pcr: int) {
    if mark.inOld == mark.inNew then reg
    else if mark.inOld then reg && !Drops(out, sid)
    else reg || Takes(out, sid, pid, pid == pcr)
  }

  function PcrReset(out: Out, sid: int): Out {
    if out.valid && out.sid == sid then out.(pcrPid := 0) else out
  }

  function PcrAfter(out: Out, sid: int, mark: Mark, pcr: int): Out {
    if mark == Mark(false, true) then PcrNoted(PcrReset(out, sid), sid, pcr, true) else PcrReset(out, sid)
  }

  /** A PMT section that HandlePMT acts upon. */
  predicate Accepts(slots: seq<Slot>, pid: int, sec: PmtSection, valid: bool) {
    match Lookup(slots, sec.pmt.program)
    case None => false
    case Some(k) => pid == slots[k].pmtPid && slots[k].pmt != Some(sec) && valid
  }

  /** The slots once HandlePMT has seen the section. */
  function PmtSlots(slots: seq<Slot>, pid: int, sec: PmtSection, valid: bool): seq<Slot> {
    if Accepts(slots, pid, sec, valid)
    then
      var k := Lookup(slots, sec.pmt.program).value;
      slots[k := slots[k].(pmt := Some(sec))]
    else slots
  }

  /** A PMT that does no harm to the outputs that are watched. */
  ghost predicate Fine(who: Watch, sec: PmtSection, pid: int, anyType: bool) {
    && (who != imap[] ==> sec.pmt.program != 0)
    && (Followed(who, sec.pmt.program) ==> Proper(sec, pid, anyType))
  }

  predicate MarkedBefore(slot: Slot, anyType: bool, p: int) {
    slot.pmt.Some? && Marked(slot.pmt.value.pmt, anyType, p)
  }

  function MarkOf(slot: Slot, sec: PmtSection, anyType: bool, p: int): Mark {
    Mark(MarkedBefore(slot, anyType, p), Marked(sec.pmt, anyType, p))
  }

  /** The PMT of slot k is replaced: what the new one brings in is started, what the old one had and
      the new one has not is stopped, and the rest is left alone. */
  ghost predicate Replaced(s: State, s': State, k: nat, sec: PmtSection, anyType: bool, tuner: Tuner) {
    && |s'.pids| == |s.pids| == MAX_PIDS && k < |s.slots|
    && s'.slots == s.slots[k := s.slots[k].(pmt := Some(sec))] && s'.pat == s.pat && SameConfigs(s.outs, s'.outs)
    && (forall p :: 0 <= p < MAX_PIDS ==> Steady(s.pids[p], s'.pids[p], p, |s.outs|, tuner))
    && (forall p, o :: 0 <= p < MAX_PIDS && 0 <= o < |s.outs| ==>
          (Reg(s', p, o) <==> RegAfter(Reg(s, p, o), s.outs[o], sec.pmt.program, p, MarkOf(s.slots[k], sec, anyType, p), sec.pmt.pcrPid)))
    && (forall o :: 0 <= o < |s.outs| ==>
          s'.outs[o] == PcrAfter(s.outs[o], sec.pmt.program, MarkOf(s.slots[k], sec, anyType, sec.pmt.pcrPid), sec.pmt.pcrPid))
  }

  lemma ReplacedTable(s: State, s': State, k: nat, sec: PmtSection, anyType: bool, tuner: Tuner)
    requires Replaced(s, s', k, sec, anyType, tuner)
    ensures s'.slots == s.slots[k := s.slots[k].(pmt := Some(sec))] && SameConfigs(s.outs, s'.outs)
  {
  }

  lemma {:induction false} LookupSame(slots: seq<Slot>, k: nat, slot: Slot, n: int)
    requires k < |slots| && slot.sid == slots[k].sid
    ensures Lookup(slots[k := slot], n) == Lookup(slots, n)
  {
    match Lookup(slots, n)
    case None =>
    case Some(i) =>
      FirstSlot(slots, n);
      LookupIs(slots[k := slot], n, i);
  }

  lemma {:induction false} FirstSlot(slots: seq<Slot>, n: int)
    requires Lookup(slots, n).Some?
    ensures forall i :: 0 <= i < Lookup(slots, n).value ==> slots[i].sid != n
  {
    if slots[0].sid != n {
      FirstSlot(slots[1..], n);
      forall i | 0 <= i < Lookup(slots, n).value ensures slots[i].sid != n {
        if i > 0 { assert slots[1..][i - 1] == slots[i]; }
      }
    }
  }

  /** The incremental update agrees with computing the wanted PIDs anew, for all outputs that are watched. */
  lemma ReplacedServes(s: State, s': State, k: nat, sec: PmtSection, anyType: bool, tuner: Tuner, who: Watch)
    requires Replaced(s, s', k, sec, anyType, tuner) && Served(s, anyType, who)
    requires Lookup(s.slots, sec.pmt.program) == Some(k) && (who != imap[] ==> sec.pmt.program != 0)
    requires Followed(who, sec.pmt.program) ==> Proper(sec, s.slots[k].pmtPid, anyType)
    ensures Served(s', anyType, who)
  {
    hide Proper, WantsPid, Steady, RegAfter, PcrAfter;
    forall o, p | 0 <= o < |s.outs| && o in who && 0 <= p < MAX_PIDS
      ensures Reg(s', p, o) <==> WantsPid(s'.slots, anyType, s'.outs[o], p)
    {
      ServedStill(s, s', k, sec, anyType, tuner, o, p, who);
    }
    forall i | 0 <= i < |s'.slots| && s'.slots[i].pmt.Some? && Followed(who, s'.slots[i].sid)
      ensures Proper(s'.slots[i].pmt.value, s'.slots[i].pmtPid, anyType)
    {
      assert i != k ==> s'.slots[i] == s.slots[i];
    }
  }

  /** Output o takes what program `sid` has, is registered on what it wants, and the PMT it got that from, if any, is proper. */
  ghost predicate Awaits(s: State, anyType: bool, o: nat, sid: int) {
    && o < |s.outs| && s.outs[o].valid && s.outs[o].sid == sid && s.outs[o].pids == [] && OnWanted(s, anyType, o)
    && match Lookup(s.slots, sid)
       case None => true
       case Some(k) => s.slots[k].pmt.Some? ==> Proper(s.slots[k].pmt.value, s.slots[k].pmtPid, anyType)
  }

  /** For one output: the incremental update agrees with computing the wanted PIDs anew exactly if the PCR of
      the new PMT is where GetPIDS looks for it. */
  lemma ReplacedOnWanted(s: State, s': State, k: nat, sec: PmtSection, anyType: bool, tuner: Tuner, o: nat)
    requires Replaced(s, s', k, sec, anyType, tuner) && Awaits(s, anyType, o, sec.pmt.program)
    requires sec.pmt.program != 0 && Lookup(s.slots, sec.pmt.program) == Some(k)
    ensures OnWanted(s', anyType, o) <==> Proper(sec, s.slots[k].pmtPid, anyType)
  {
    hide Marked, Proper, Steady, Counted;
    var out := s.outs[o];
    LookupSame(s.slots, k, s'.slots[k], out.sid);
    MarkedIsWanted(s'.slots, k, anyType, out);
    if s.slots[k].pmt.Some? {
      MarkedIsWanted(s.slots, k, anyType, out);
    }
    forall p | 0 <= p < MAX_PIDS ensures Reg(s', p, o) <==> Marked(sec.pmt, anyType, p) {
      assert Reg(s, p, o) <==> WantsPid(s.slots, anyType, out, p);
    }
    MarkedInRange(sec, anyType);
    WantedInRange(s'.slots, anyType, s'.outs[o]);
  }

  lemma MarkedInRange(sec: PmtSection, anyType: bool)
    ensures forall p :: Marked(sec.pmt, anyType, p) ==> 0 <= p < MAX_PIDS
  {
    var pids := Selected(sec.pmt.es, anyType);
    forall p | p in pids ensures 0 <= p < MAX_PIDS {
      var i :| 0 <= i < |pids| && pids[i] == p;
    }
  }

  lemma WantedInRange(slots: seq<Slot>, anyType: bool, out: Out)
    ensures forall p :: WantsPid(slots, anyType, out, p) ==> 0 <= p < MAX_PIDS
  {
  }

  /** A PMT with its PCR on its own PMT PID leaves every output of the program registered on a PID it does not want. */
  lemma ImproperBreaks(s: State, s': State, k: nat, sec: PmtSection, anyType: bool, tuner: Tuner, o: nat)
    requires Replaced(s, s', k, sec, anyType, tuner) && !Proper(sec, s.slots[k].pmtPid, anyType)
    requires sec.pmt.program != 0 && Lookup(s.slots, sec.pmt.program) == Some(k) && s.slots[k].pmt.None?
    requires o < |s.outs| && s.outs[o].valid && s.outs[o].sid == sec.pmt.program && s.outs[o].pids == []
    ensures |s'.outs| == |s.outs| && Reg(s', sec.pmt.pcrPid, o) && !WantsPid(s'.slots, anyType, s'.outs[o], sec.pmt.pcrPid)
  {
    LookupSame(s.slots, k, s'.slots[k], sec.pmt.program);
    assert Reg(s', sec.pmt.pcrPid, o) <==>
      RegAfter(Reg(s, sec.pmt.pcrPid, o), s.outs[o], sec.pmt.program, sec.pmt.pcrPid, MarkOf(s.slots[k], sec, anyType, sec.pmt.pcrPid), sec.pmt.pcrPid);
  }

  lemma ServedStill(s: State, s': State, k: nat, sec: PmtSection, anyType: bool, tuner: Tuner, o: nat, p: int, who: Watch)
    requires Replaced(s, s', k, sec, anyType, tuner) && Served(s, anyType, who)
    requires sec.pmt.program != 0 && Lookup(s.slots, sec.pmt.program) == Some(k)
    requires Followed(who, sec.pmt.program) ==> Proper(sec, s.slots[k].pmtPid, anyType)
    requires o < |s.outs| && o in who && 0 <= p < MAX_PIDS
    ensures Reg(s', p, o) <==> WantsPid(s'.slots, anyType, s'.outs[o], p)
  {
    hide Marked, Proper, Steady, Counted;
    var out, sid := s.outs[o], sec.pmt.program;
    assert Reg(s, p, o) <==> WantsPid(s.slots, anyType, out, p);
    LookupSame(s.slots, k, s'.slots[k], out.sid);
    if out.sid == sid {
      assert Fit(out, who[o]) && Followed(who, sid);
      MarkedIsWanted(s'.slots, k, anyType, out);
      if s.slots[k].pmt.Some? {
        MarkedIsWanted(s.slots, k, anyType, out);
      }
    }
  }

  lemma ReplacedSlots(s: State, s': State, k: nat, sec: PmtSection, anyType: bool, tuner: Tuner, programs: map<int, int>)
    requires Replaced(s, s', k, sec, anyType, tuner) && SlotsAre(s.slots, programs) && s.slots[k].sid == sec.pmt.program
    ensures SlotsAre(s'.slots, programs)
  {
    hide Steady, RegAfter, PcrAfter;
    forall n | n in programs ensures HasSlot(s'.slots, n) {
      assert HasSlot(s.slots, n);
      var i :| 0 <= i < |s.slots| && s.slots[i].sid == n;
      assert s'.slots[i].sid == n;
    }
  }

  lemma SteadyExact(s: State, s': State, programs: map<int, int>, tuner: Tuner)
    requires Counts(s, tuner) && PsiAre(s, programs) && Filters(s, tuner)
    requires |s'.pids| == MAX_PIDS && forall p :: 0 <= p < MAX_PIDS ==> Steady(s.pids[p], s'.pids[p], p, |s.outs|, tuner)
    ensures PsiAre(s', programs) && Filters(s', tuner)
  {
    hide Counted, FilterOk, On;
    forall p | 0 <= p < MAX_PIDS ensures s'.pids[p].psi == s.pids[p].psi && FilterOk(s'.pids[p], tuner) {
      assert Steady(s.pids[p], s'.pids[p], p, |s.outs|, tuner);
    }
  }

  /** What holds on all runs ... */
  ghost predicate Tidy(s: State, programs: map<int, int>, anyType: bool, who: Watch, tuner: Tuner) {
    Counts(s, tuner) && SlotsAre(s.slots, programs) && Served(s, anyType, who)
  }

  /** ... and what holds as long as no output changes its program while that is known. */
  ghost predicate Exact(s: State, programs: map<int, int>, tuner: Tuner) {
    PsiAre(s, programs) && Filters(s, tuner)
  }

  lemma ReplacedKeeps(s: State, s': State, k: nat, sec: PmtSection, anyType: bool, tuner: Tuner, programs: map<int, int>, who: Watch)
    requires Replaced(s, s', k, sec, anyType, tuner) && Lookup(s.slots, sec.pmt.program) == Some(k) && Counts(s', tuner)
    ensures Tidy(s, programs, anyType, who, tuner) && Fine(who, sec, s.slots[k].pmtPid, anyType) ==> Tidy(s', programs, anyType, who, tuner)
    ensures Tidy(s, programs, anyType, who, tuner) && Exact(s, programs, tuner) ==> Exact(s', programs, tuner)
  {
    hide Counts, Served, SlotsAre, PsiAre, Filters, Proper, Steady;
    if Tidy(s, programs, anyType, who, tuner) {
      ReplacedSlots(s, s', k, sec, anyType, tuner, programs);
      if Fine(who, sec, s.slots[k].pmtPid, anyType) {
        ReplacedServes(s, s', k, sec, anyType, tuner, who);
      }
      if Exact(s, programs, tuner) {
        SteadyExact(s, s', programs, tuner);
      }
    }
  }

  lemma ReplacedNow(s: State, before: State, s': State, k: nat, sec: PmtSection, anyType: bool, tuner: Tuner, marks: seq<Mark>)
    requires k < |s.slots| && |marks| == MAX_PIDS
    requires forall p :: 0 <= p < MAX_PIDS ==> marks[p] == MarkOf(s.slots[k], sec, anyType, p)
    requires Moves(s, s'.(slots := s.slots), tuner) && before.pids == s.pids
    requires s'.slots == s.slots[k := s.slots[k].(pmt := Some(sec))]
    requires |before.outs| == |s.outs| == |s'.outs| && forall o :: 0 <= o < |s.outs| ==> before.outs[o] == PcrReset(s.outs[o], sec.pmt.program)
    requires forall o :: 0 <= o < |s.outs| ==>
      s'.outs[o] == if marks[sec.pmt.pcrPid] == Mark(false, true) then PcrNoted(before.outs[o], sec.pmt.program, sec.pmt.pcrPid, true) else before.outs[o]
    requires forall p, o :: 0 <= p < MAX_PIDS && 0 <= o < |s.outs| ==>
      (Reg(s'.(slots := s.slots), p, o) <==> RegAfter(Reg(before, p, o), before.outs[o], sec.pmt.program, p, marks[p], sec.pmt.pcrPid))
    ensures Replaced(s, s', k, sec, anyType, tuner)
  {
    hide Steady, Marked;
    forall p, o | 0 <= p < MAX_PIDS && 0 <= o < |s.outs|
      ensures Reg(s', p, o) <==> RegAfter(Reg(s, p, o), s.outs[o], sec.pmt.program, p, MarkOf(s.slots[k], sec, anyType, p), sec.pmt.pcrPid)
    {
      assert Reg(s'.(slots := s.slots), p, o) == Reg(s', p, o) && Reg(before, p, o) == Reg(s, p, o);
    }
  }

  // ----- programs that come and go -----

  /** The PSI count moved by d, and the counts are still right. */
  ghost predicate Shifted(s: PidState, s': PidState, pid: int, n: nat, tuner: Tuner, d: int) {
    && s'.psi == s.psi + d
    && (Counted(s, pid, n, tuner) ==> Counted(s', pid, n, tuner))
    && (Counted(s, pid, n, tuner) && s.psi >= 0 && s'.psi >= 0 && FilterOk(s, tuner) ==> FilterOk(s', tuner))
  }

  function Delta(p: int, pid: int, d: int): int {
    if p == pid then d else 0
  }

  /** SelectPMT (d is 1) and UnselectPMT (d is -1), where all programs' PMTs are read. */
  ghost predicate Shifts(s: State, s': State, pid: int, d: int, tuner: Tuner) {
    && |s'.pids| == |s.pids| == MAX_PIDS && s'.outs == s.outs && s'.pat == s.pat
    && (forall p :: 0 <= p < MAX_PIDS ==> Shifted(s.pids[p], s'.pids[p], p, |s.outs|, tuner, Delta(p, pid, d)))
  }

  lemma ShiftThenMove(a: State, b: State, c: State, pid: int, d: int, tuner: Tuner)
    requires Shifts(a, b, pid, d, tuner) && Moves(b, c, tuner) && c.outs == b.outs
    ensures Shifts(a, c, pid, d, tuner)
  {
    hide Counted, FilterOk;
    forall p | 0 <= p < MAX_PIDS ensures Shifted(a.pids[p], c.pids[p], p, |a.outs|, tuner, Delta(p, pid, d)) {
      assert Shifted(a.pids[p], b.pids[p], p, |a.outs|, tuner, Delta(p, pid, d)) && Steady(b.pids[p], c.pids[p], p, |b.outs|, tuner);
    }
  }

  lemma ShiftCounts(s: State, s': State, pid: int, d: int, tuner: Tuner)
    requires Shifts(s, s', pid, d, tuner) && Counts(s, tuner)
    ensures Counts(s', tuner)
  {
    hide Counted;
    forall p | 0 <= p < MAX_PIDS ensures Counted(s'.pids[p], p, |s.outs|, tuner) {
      assert Shifted(s.pids[p], s'.pids[p], p, |s.outs|, tuner, Delta(p, pid, d));
    }
  }

  lemma ShiftExact(s: State, s': State, pid: int, d: int, tuner: Tuner, programs: map<int, int>, programs': map<int, int>)
    requires Shifts(s, s', pid, d, tuner) && Counts(s, tuner) && Exact(s, programs, tuner)
    requires forall p :: 0 <= p < MAX_PIDS ==> |On(programs', p)| == |On(programs, p)| + Delta(p, pid, d)
    ensures Exact(s', programs', tuner)
  {
    hide Counted, FilterOk, On;
    forall p | 0 <= p < MAX_PIDS
      ensures s'.pids[p].psi == BasePsi(p) + |On(programs', p)| && FilterOk(s'.pids[p], tuner)
    {
      assert Shifted(s.pids[p], s'.pids[p], p, |s.outs|, tuner, Delta(p, pid, d));
    }
  }

  /** What DeleteProgram unselects. */
  predicate Leaves(slot: Slot, anyType: bool, p: int) {
    slot.pmt.Some? &&
    (p in Selected(slot.pmt.value.pmt.es, anyType)
     || (p == slot.pmt.value.pmt.pcrPid && p != PADDING_PID && p != slot.pmtPid))
  }

  ghost predicate Deleted(s: State, s': State, sid: int, pid: int, anyType: bool, tuner: Tuner) {
    && Shifts(s, s', pid, -1, tuner)
    && match Lookup(s.slots, sid)
       case None => s'.slots == s.slots && forall p, o :: 0 <= p < MAX_PIDS && 0 <= o < |s.outs| ==> (Reg(s', p, o) <==> Reg(s, p, o))
       case Some(k) =>
         && s'.slots == s.slots[k := FREE]
         && forall p, o :: 0 <= p < MAX_PIDS && 0 <= o < |s.outs| ==>
              (Reg(s', p, o) <==> Reg(s, p, o) && !(Leaves(s.slots[k], anyType, p) && Drops(s.outs[o], sid)))
  }

  ghost predicate Added(s: State, s': State, sid: int, pid: Pid, tuner: Tuner) {
    && Shifts(s, s', pid, 1, tuner)
    && (forall p, o :: 0 <= p < MAX_PIDS && 0 <= o < |s.outs| ==> (Reg(s', p, o) <==> Reg(s, p, o)))
    && s'.slots == Given(s.slots, sid, pid)
  }

  /** The slot that a new program is given: the first free one, with the PMT that may be left in it, or a new one. */
  function Given(slots: seq<Slot>, sid: int, pid: Pid): seq<Slot> {
    match Lookup(slots, 0)
    case None => slots + [Slot(sid, pid, None)]
    case Some(k) => slots[k := slots[k].(sid := sid, pmtPid := pid)]
  }

  function Freed(slots: seq<Slot>, sid: int): seq<Slot> {
    match Lookup(slots, sid) case None => slots case Some(k) => slots[k := FREE]
  }

  lemma LookupOther(slots: seq<Slot>, slots': seq<Slot>, n: int)
    requires |slots| <= |slots'| && forall i :: 0 <= i < |slots| ==> slots'[i] == slots[i] || (slots[i].sid != n && slots'[i].sid != n)
    requires forall i :: |slots| <= i < |slots'| ==> slots'[i].sid != n
    ensures Lookup(slots', n) == Lookup(slots, n)
  {
    match Lookup(slots, n)
    case None =>
    case Some(i) =>
      FirstSlot(slots, n);
      LookupIs(slots', n, i);
  }

  lemma OnLess(programs: map<int, int>, sid: int, p: int)
    requires sid in programs
    ensures |On(programs - {sid}, p)| == |On(programs, p)| + Delta(p, programs[sid], -1)
  {
    if p == programs[sid] {
      assert On(programs, p) == On(programs - {sid}, p) + {sid};
    } else {
      assert On(programs, p) == On(programs - {sid}, p);
    }
  }

  lemma OnMore(programs: map<int, int>, sid: int, pid: int, p: int)
    requires sid !in programs
    ensures |On(programs[sid := pid], p)| == |On(programs, p)| + Delta(p, pid, 1)
  {
    if p == pid {
      assert On(programs[sid := pid], p) == On(programs, p) + {sid};
    } else {
      assert On(programs[sid := pid], p) == On(programs, p);
    }
  }

  /** Of a program that is deleted nothing remains: no slot, no PSI reference, no registration. */
  lemma DeletedKeeps(s: State, s': State, sid: int, pid: int, anyType: bool, tuner: Tuner, programs: map<int, int>, who: Watch)
    requires Deleted(s, s', sid, pid, anyType, tuner) && Tidy(s, programs, anyType, who, tuner)
    requires sid in programs && programs[sid] == pid
    ensures Tidy(s', programs - {sid}, anyType, who, tuner)
    ensures Exact(s, programs, tuner) ==> Exact(s', programs - {sid}, tuner)
  {
    hide Counts, Shifts, Served, PsiAre, Filters;
    ShiftCounts(s, s', pid, -1, tuner);
    DeletedSlots(s, s', sid, pid, anyType, tuner, programs);
    DeletedServes(s, s', sid, pid, anyType, tuner, programs, who);
    if Exact(s, programs, tuner) {
      forall p | 0 <= p < MAX_PIDS ensures |On(programs - {sid}, p)| == |On(programs, p)| + Delta(p, pid, -1) {
        OnLess(programs, sid, p);
      }
      ShiftExact(s, s', pid, -1, tuner, programs, programs - {sid});
    }
  }

  lemma DeletedSlots(s: State, s': State, sid: int, pid: int, anyType: bool, tuner: Tuner, programs: map<int, int>)
    requires Deleted(s, s', sid, pid, anyType, tuner) && SlotsAre(s.slots, programs) && sid in programs
    ensures sid != 0 && Lookup(s.slots, sid).Some? && SlotsAre(s'.slots, programs - {sid})
  {
    assert HasSlot(s.slots, sid);
    var k := Lookup(s.slots, sid).value;
    forall n | n in programs - {sid} ensures HasSlot(s'.slots, n) {
      assert HasSlot(s.slots, n);
      var i :| 0 <= i < |s.slots| && s.slots[i].sid == n;
      assert s'.slots[i].sid == n;
    }
  }

  lemma DeletedServes(s: State, s': State, sid: int, pid: int, anyType: bool, tuner: Tuner, programs: map<int, int>, who: Watch)
    requires Deleted(s, s', sid, pid, anyType, tuner) && SlotsAre(s.slots, programs) && Served(s, anyType, who) && sid in programs
    ensures Served(s', anyType, who)
  {
    hide Shifted, Proper, WantsPid, Leaves, SlotsAre, Fit;
    DeletedSlots(s, s', sid, pid, anyType, tuner, programs);
    forall o, p | 0 <= o < |s.outs| && o in who && 0 <= p < MAX_PIDS
      ensures Reg(s', p, o) <==> WantsPid(s'.slots, anyType, s.outs[o], p)
    {
      WatchedClean(s, anyType, who, o);
      LeavesAll(s.slots, s'.slots, sid, anyType, s.outs[o], p, programs);
      assert Reg(s, p, o) <==> WantsPid(s.slots, anyType, s.outs[o], p);
    }
  }

  lemma WatchedClean(s: State, anyType: bool, who: Watch, o: nat)
    requires Served(s, anyType, who) && o < |s.outs| && o in who
    ensures Clean(s.outs[o]) && Closable(s.outs[o])
  {
    assert Fit(s.outs[o], who[o]);
  }

  /** What a program's outputs want of it is what DeleteProgram takes away from them. */
  lemma LeavesAll(slots: seq<Slot>, slots': seq<Slot>, sid: int, anyType: bool, out: Out, p: int, programs: map<int, int>)
    requires SlotsAre(slots, programs) && sid in programs && Lookup(slots, sid).Some? && Clean(out)
    requires slots' == slots[Lookup(slots, sid).value := FREE]
    ensures WantsPid(slots', anyType, out, p) <==>
      WantsPid(slots, anyType, out, p) && !(out.sid == sid && Leaves(slots[Lookup(slots, sid).value], anyType, p))
  {
    if out.sid == sid {
      assert Lookup(slots', sid).None?;
    } else if out.sid != 0 {
      LookupOther(slots, slots', out.sid);
    }
  }

  /** A program that is added is known in one slot, with no PMT yet. */
  lemma AddedKeeps(s: State, s': State, sid: int, pid: Pid, anyType: bool, tuner: Tuner, programs: map<int, int>, who: Watch)
    requires Added(s, s', sid, pid, tuner) && Tidy(s, programs, anyType, who, tuner)
    requires sid != 0 && sid !in programs
    ensures Tidy(s', programs[sid := pid], anyType, who, tuner)
    ensures Exact(s, programs, tuner) ==> Exact(s', programs[sid := pid], tuner)
  {
    hide Counts, Shifts, Served, PsiAre, Filters;
    ShiftCounts(s, s', pid, 1, tuner);
    AddedSlots(s, s', sid, pid, tuner, programs);
    AddedServes(s, s', sid, pid, anyType, tuner, programs, who);
    if Exact(s, programs, tuner) {
      forall p | 0 <= p < MAX_PIDS ensures |On(programs[sid := pid], p)| == |On(programs, p)| + Delta(p, pid, 1) {
        OnMore(programs, sid, pid, p);
      }
      ShiftExact(s, s', pid, 1, tuner, programs, programs[sid := pid]);
    }
  }

  lemma AddedSlots(s: State, s': State, sid: int, pid: Pid, tuner: Tuner, programs: map<int, int>)
    requires Added(s, s', sid, pid, tuner) && SlotsAre(s.slots, programs) && sid != 0 && sid !in programs
    ensures SlotsAre(s'.slots, programs[sid := pid])
  {
    var k := match Lookup(s.slots, 0) case None => |s.slots| case Some(i) => i;
    assert s'.slots[k].sid == sid && s'.slots[k].pmtPid == pid;
    forall n | n in programs[sid := pid] ensures HasSlot(s'.slots, n) {
      if n == sid {
        assert s'.slots[k].sid == n;
      } else {
        assert HasSlot(s.slots, n);
        var i :| 0 <= i < |s.slots| && s.slots[i].sid == n;
        assert s'.slots[i].sid == n;
      }
    }
  }

  lemma AddedServes(s: State, s': State, sid: int, pid: Pid, anyType: bool, tuner: Tuner, programs: map<int, int>, who: Watch)
    requires Added(s, s', sid, pid, tuner) && SlotsAre(s.slots, programs) && Served(s, anyType, who)
    requires sid != 0 && sid !in programs
    ensures Served(s', anyType, who)
  {
    hide Shifted, Proper, WantsPid, SlotsAre, Fit, Closable;
    NotThere(s.slots, programs, sid);
    FreeStays(s.slots, s'.slots, sid, pid);
    forall o, p | 0 <= o < |s.outs| && o in who && 0 <= p < MAX_PIDS
      ensures Reg(s', p, o) <==> WantsPid(s'.slots, anyType, s.outs[o], p)
    {
      WatchedClean(s, anyType, who, o);
      FirstFree(s.slots);
      NewWantsNothing(s.slots, s'.slots, sid, pid, anyType, s.outs[o], p);
      assert Reg(s, p, o) <==> WantsPid(s.slots, anyType, s.outs[o], p);
    }
  }

  lemma NotThere(slots: seq<Slot>, programs: map<int, int>, sid: int)
    requires SlotsAre(slots, programs) && sid != 0 && sid !in programs
    ensures forall i :: 0 <= i < |slots| ==> slots[i].sid != sid
  {
  }

  lemma FirstFree(slots: seq<Slot>)
    requires FreeEmpty(slots)
    ensures Lookup(slots, 0).Some? ==> slots[Lookup(slots, 0).value] == FREE
  {
  }

  lemma FreeStays(slots: seq<Slot>, slots': seq<Slot>, sid: int, pid: Pid)
    requires sid != 0 && slots' == Given(slots, sid, pid)
    ensures FreeEmpty(slots) ==> FreeEmpty(slots')
  {
  }

  lemma NewWantsNothing(slots: seq<Slot>, slots': seq<Slot>, sid: int, pid: Pid, anyType: bool, out: Out, p: int)
    requires sid != 0 && (forall i :: 0 <= i < |slots| ==> slots[i].sid != sid) && Clean(out)
    requires Lookup(slots, 0).Some? ==> slots[Lookup(slots, 0).value] == FREE
    requires slots' == Given(slots, sid, pid)
    ensures WantsPid(slots', anyType, out, p) <==> WantsPid(slots, anyType, out, p)
  {
    hide WantedPids, WantsPid;
    var k := match Lookup(slots, 0) case None => |slots| case Some(i) => i;
    assert slots'[k] == Slot(sid, pid, None);
    if out.sid == sid {
      LookupIs(slots', sid, k);
      WantsList(slots, anyType, out, p);
      WantsList(slots', anyType, out, p);
    } else if out.sid != 0 {
      LookupOther(slots, slots', out.sid);
      WantsSame(slots, slots', anyType, out, p);
    } else {
      WantsList(slots, anyType, out, p);
      WantsList(slots', anyType, out, p);
    }
  }

  lemma WantsList(slots: seq<Slot>, anyType: bool, out: Out, p: int)
    requires out.sid == 0 || Lookup(slots, out.sid).None? || slots[Lookup(slots, out.sid).value].pmt.None?
    ensures WantsPid(slots, anyType, out, p) <==> p in out.pids
  {
    hide Selected;
  }

  lemma WantsSame(slots: seq<Slot>, slots': seq<Slot>, anyType: bool, out: Out, p: int)
    requires Lookup(slots', out.sid) == Lookup(slots, out.sid)
    requires Lookup(slots, out.sid).Some? ==> slots'[Lookup(slots, out.sid).value] == slots[Lookup(slots, out.sid).value]
    ensures WantsPid(slots', anyType, out, p) <==> WantsPid(slots, anyType, out, p)
  {
    hide Selected;
  }

  /** A PMT that gives its program no PID. */
  predicate Barren(sec: PmtSection, pmtPid: int, anyType: bool) {
    Selected(sec.pmt.es, anyType) == [] && (sec.pmt.pcrPid == PADDING_PID || sec.pmt.pcrPid == pmtPid)
  }

  /** What is left in the slot that the next program is given. */
  function LeftOver(slots: seq<Slot>): Option<PmtSection> {
    match Lookup(slots, 0) case None => None case Some(k) => slots[k].pmt
  }

  /** A program that is added inherits the PMT left in its slot; an output that waits for it is then registered on
      what it wants exactly if there is no such PMT, or it gives the program no PID. */
  lemma AddedOnWanted(s: State, s': State, sid: int, pid: Pid, anyType: bool, tuner: Tuner, o: nat)
    requires Added(s, s', sid, pid, tuner) && sid != 0 && Lookup(s.slots, sid).None?
    requires o < |s.outs| && s.outs[o].sid == sid && s.outs[o].pids == [] && OnWanted(s, anyType, o)
    ensures OnWanted(s', anyType, o) <==> (LeftOver(s.slots).Some? ==> Barren(LeftOver(s.slots).value, pid, anyType))
  {
    hide Shifted;
    var out := s.outs[o];
    var k := match Lookup(s.slots, 0) case None => |s.slots| case Some(i) => i;
    assert s'.slots[k] == Slot(sid, pid, LeftOver(s.slots));
    LookupIs(s'.slots, sid, k);
    forall p | 0 <= p < MAX_PIDS ensures !Reg(s', p, o) {
      assert Reg(s, p, o) <==> WantsPid(s.slots, anyType, out, p);
    }
    if LeftOver(s.slots).Some? && !Barren(LeftOver(s.slots).value, pid, anyType) {
      var sec := LeftOver(s.slots).value;
      var pids := Selected(sec.pmt.es, anyType);
      var p := if pids != [] then pids[0] else sec.pmt.pcrPid;
      assert WantsPid(s'.slots, anyType, out, p);
    }
  }

  /** And when the program's own PMT comes, what both PMTs have is not started. */
  lemma InheritedShadows(s: State, s': State, k: nat, sec: PmtSection, anyType: bool, tuner: Tuner, o: nat)
    requires Replaced(s, s', k, sec, anyType, tuner) && o < |s.outs|
    requires s.outs[o].valid && s.outs[o].sid == sec.pmt.program && s.outs[o].pids == []
    requires forall p :: 0 <= p < MAX_PIDS ==> !Reg(s, p, o)
    ensures forall p :: 0 <= p < MAX_PIDS ==>
      (Reg(s', p, o) <==> Marked(sec.pmt, anyType, p) && !MarkedBefore(s.slots[k], anyType, p))
  {
    hide Marked, Steady;
  }

  /** No registration came. */
  ghost predicate NoneStarted(s: State, s': State) {
    && |s'.outs| == |s.outs|
    && forall p, o :: 0 <= p < MAX_PIDS && 0 <= o < |s.outs| && Reg(s', p, o) ==> Reg(s, p, o)
  }

  lemma DeletedStarts(s: State, s': State, sid: int, pid: int, anyType: bool, tuner: Tuner)
    requires Deleted(s, s', sid, pid, anyType, tuner)
    ensures NoneStarted(s, s') && s'.slots == Freed(s.slots, sid)
  {
    hide Shifted;
  }

  lemma AddedStarts(s: State, s': State, sid: int, pid: Pid, tuner: Tuner)
    requires Added(s, s', sid, pid, tuner)
    ensures NoneStarted(s, s') && s'.slots == Given(s.slots, sid, pid)
  {
    hide Shifted;
  }

  // ----- the slots after a PAT -----

  /** The entry names a program that is new, on another PID than before, or of another transport stream. */
  predicate ComesAnew(e: Entry, old_: Option<Pat>, change: bool) {
    e.program != 0 && (FindIn(old_, e.program) != Some(e.pid) || change)
  }

  function EntrySlots(slots: seq<Slot>, e: Entry, old_: Option<Pat>, change: bool): seq<Slot> {
    if ComesAnew(e, old_, change)
    then Given(if FindIn(old_, e.program).Some? then Freed(slots, e.program) else slots, e.program, e.pid)
    else slots
  }

  function EntriesSlots(slots: seq<Slot>, entries: seq<Entry>, old_: Option<Pat>, change: bool): seq<Slot> {
    if entries == [] then slots
    else EntrySlots(EntriesSlots(slots, entries[..|entries| - 1], old_, change), entries[|entries| - 1], old_, change)
  }

  predicate Goes(e: Entry, new_: Pat) {
    e.program != 0 && Find(new_.entries, e.program).None?
  }

  function ForgetSlots(slots: seq<Slot>, entries: seq<Entry>, new_: Pat): seq<Slot> {
    if entries == [] then slots
    else
      var rest := ForgetSlots(slots, entries[..|entries| - 1], new_);
      if Goes(entries[|entries| - 1], new_) then Freed(rest, entries[|entries| - 1].program) else rest
  }

  function Changes(old_: Option<Pat>, new_: Pat): bool {
    old_.None? || new_.tsid != old_.value.tsid
  }

  /** The slots once HandlePAT has taken a valid new PAT. */
  function PatSlots(slots: seq<Slot>, old_: Option<Pat>, new_: Pat): seq<Slot> {
    var slots' := EntriesSlots(slots, new_.entries, old_, Changes(old_, new_));
    if old_.None? then slots' else ForgetSlots(slots', old_.value.entries, new_)
  }

  lemma ShiftsFollow(a: State, b: State, c: State, pid: int, d: int, tuner: Tuner)
    requires Shifts(a, b, pid, d, tuner) && c == b.(slots := c.slots)
    ensures Shifts(a, c, pid, d, tuner)
  {
  }

  lemma NothingLeaves(slot: Slot, anyType: bool)
    requires slot.pmt.None?
    ensures forall p :: !Leaves(slot, anyType, p)
  {
  }

  /** Since `before`, only output o was stopped, and only on PIDs that are not wanted. */
  predicate StopsOnly(before: seq<(nat, int)>, now: seq<(nat, int)>, o: nat, wanted: seq<int>) {
    && |before| <= |now| && now[..|before|] == before
    && forall i :: |before| <= i < |now| ==> now[i].0 == o && now[i].1 !in wanted
  }

  // ----- configuration changes -----

  predicate SidKnown(slots: seq<Slot>, sid: int) {
    sid != 0 && Lookup(slots, sid).Some?
  }

  /** What a program contributes to the PSI count of a PID while an output is moved to it. */
  function PsiOf(slots: seq<Slot>, sid: int, p: int): int {
    if SidKnown(slots, sid) && slots[Lookup(slots, sid).value].pmtPid == p then 1 else 0
  }

  /** demux_Change drops one PMT reference and takes one, if it knows the programs. */
  function Gain(slots: seq<Slot>, oldSid: int, newSid: int, p: int): int {
    if oldSid == newSid then 0 else PsiOf(slots, newSid, p) - PsiOf(slots, oldSid, p)
  }

  ghost predicate PsiMoved(s: State, s': State, sid: int, d: int) {
    && |s'.pids| == |s.pids| == MAX_PIDS && s' == s.(pids := s'.pids)
    && (forall p, x :: 0 <= p < MAX_PIDS && 0 <= x < |s.outs| ==> (Reg(s', p, x) <==> Reg(s, p, x)))
    && (forall p :: 0 <= p < MAX_PIDS ==> s'.pids[p].psi == s.pids[p].psi + d * PsiOf(s.slots, sid, p))
  }

  lemma ShiftsPsi(s: State, s': State, pid: int, d: int, tuner: Tuner)
    requires Shifts(s, s', pid, d, tuner)
    ensures forall p :: 0 <= p < MAX_PIDS ==> s'.pids[p].psi == s.pids[p].psi + Delta(p, pid, d)
  {
    forall p | 0 <= p < MAX_PIDS ensures s'.pids[p].psi == s.pids[p].psi + Delta(p, pid, d) {
      assert Shifted(s.pids[p], s'.pids[p], p, |s.outs|, tuner, Delta(p, pid, d));
    }
  }

  lemma MovesPsi(s: State, s': State, tuner: Tuner)
    requires Moves(s, s', tuner)
    ensures |s'.pids| == |s.pids| == MAX_PIDS && s'.slots == s.slots && |s'.outs| == |s.outs|
    ensures forall p :: 0 <= p < MAX_PIDS ==> s'.pids[p].psi == s.pids[p].psi
  {
    forall p | 0 <= p < MAX_PIDS ensures s'.pids[p].psi == s.pids[p].psi {
      assert Steady(s.pids[p], s'.pids[p], p, |s.outs|, tuner);
    }
  }

  predicate RegChanged(reg: bool, p: int, current: seq<int>, wanted: seq<int>) {
    if p in current then reg && p in wanted else reg || p in wanted
  }

  /** Output o went from what it wanted to what it wants; the others stayed. */
  ghost predicate Changed(s: State, s': State, o: nat, new_: Out, anyType: bool) {
    && |s'.pids| == |s.pids| == MAX_PIDS && o < |s.outs| == |s'.outs|
    && forall p, x :: 0 <= p < MAX_PIDS && 0 <= x < |s.outs| ==>
         (Reg(s', p, x) <==>
           if x == o
           then RegChanged(Reg(s, p, o), p, WantedPids(s.slots, s.outs[o].sid, s.outs[o].pids, anyType).0, WantedPids(s.slots, new_.sid, new_.pids, anyType).0)
           else Reg(s, p, x))
  }

  ghost predicate SteadyAll(s: State, s': State, tuner: Tuner) {
    && |s'.pids| == |s.pids| == MAX_PIDS
    && forall p :: 0 <= p < MAX_PIDS ==> Steady(s.pids[p], s'.pids[p], p, |s.outs|, tuner)
  }

  lemma SteadyFollows(s: State, s1: State, s2: State, s': State, tuner: Tuner)
    requires s1.pids == s.pids && s'.pids == s2.pids && |s.outs| == |s1.outs|
    ensures Moves(s1, s2, tuner) ==> SteadyAll(s, s', tuner)
  {
  }

  lemma SameChanged(s: State, s': State, o: nat, new_: Out, anyType: bool, tuner: Tuner)
    requires |s.pids| == MAX_PIDS && o < |s.outs| && Same(s.outs[o], new_)
    requires s' == s.(outs := s.outs[o := s.outs[o].(valid := new_.valid)])
    ensures Changed(s, s', o, new_, anyType) && SteadyAll(s, s', tuner)
  {
    hide WantedPids;
    assert forall p, x :: Reg(s', p, x) == Reg(s, p, x);
  }

  lemma NoStops(stops: seq<(nat, int)>, o: nat, wanted: seq<int>)
    ensures StopsOnly(stops, stops, o, wanted)
  {
  }

  /** The reload claim of the README: an output that got what it wanted gets what it now wants. */
  lemma ChangedWanted(s: State, s': State, o: nat, new_: Out, anyType: bool)
    requires Changed(s, s', o, new_, anyType)
    requires forall p :: 0 <= p < MAX_PIDS ==> (Reg(s, p, o) <==> WantsPid(s.slots, anyType, s.outs[o], p))
    ensures forall p :: 0 <= p < MAX_PIDS ==> (Reg(s', p, o) <==> WantsPid(s.slots, anyType, new_, p))
    ensures forall p, x :: 0 <= p < MAX_PIDS && 0 <= x < |s.outs| && x != o ==> (Reg(s', p, x) <==> Reg(s, p, x))
  {
    hide WantedPids;
  }

  /** An output is registered on what it wants, whatever its configuration. */
  ghost predicate OnWanted(s: State, anyType: bool, o: nat) {
    |s.pids| == MAX_PIDS && o < |s.outs| && forall p :: 0 <= p < MAX_PIDS ==> (Reg(s, p, o) <==> WantsPid(s.slots, anyType, s.outs[o], p))
  }

  /** So over any number of reloads outputs stay registered on what they want; one that comes to be
      watched now, o say, need only be registered on what its old configuration, of any kind, wanted. */
  lemma ChangedServes(s: State, s': State, o: nat, new_: Out, anyType: bool, who: Watch)
    requires Changed(s, s', o, new_, anyType) && Served(s, anyType, who - {o}) && s'.slots == s.slots
    requires forall x :: 0 <= x < |s.outs| && x != o ==> s'.outs[x] == s.outs[x]
    requires s'.outs[o] == new_.(pcrPid := s'.outs[o].pcrPid)
    requires o in who ==> OnWanted(s, anyType, o) && Fit(new_, who[o])
    requires forall i :: 0 <= i < |s.slots| && s.slots[i].pmt.Some? && Followed(who, s.slots[i].sid) ==>
      Proper(s.slots[i].pmt.value, s.slots[i].pmtPid, anyType)
    requires who != imap[] ==> FreeEmpty(s.slots)
    ensures Served(s', anyType, who)
  {
    hide WantedPids, Proper;
    if o in who {
      ChangedWanted(s, s', o, new_, anyType);
    }
    forall x, p | 0 <= x < |s.outs| && x in who && 0 <= p < MAX_PIDS
      ensures Reg(s', p, x) <==> WantsPid(s'.slots, anyType, s'.outs[x], p)
    {
      assert x != o ==> x in who - {o};
    }
    assert forall x :: 0 <= x < |s.outs| && x in who && x != o ==> Fit(s.outs[x], (who - {o})[x]);
  }

  lemma FewerServed(s: State, anyType: bool, who: Watch, o: nat)
    requires Served(s, anyType, who)
    ensures Served(s, anyType, who - {o})
    ensures o in who && o < |s.outs| ==> OnWanted(s, anyType, o)
    ensures forall i :: 0 <= i < |s.slots| && s.slots[i].pmt.Some? && Followed(who, s.slots[i].sid) ==>
      Proper(s.slots[i].pmt.value, s.slots[i].pmtPid, anyType)
    ensures who != imap[] ==> FreeEmpty(s.slots)
  {
    hide WantsPid, Proper, Fit;
    assert forall sid :: Followed(who - {o}, sid) ==> Followed(who, sid);
  }

  lemma Created(s: State, s': State, o: nat, out: Out, anyType: bool, who: Watch, tuner: Tuner)
    requires Counts(s, tuner) && o <= |s.outs| && (o < |s.outs| ==> !s.outs[o].valid) && out.sid == 0 && out.pids == []
    requires s' == s.(outs := if o == |s.outs| then s.outs + [out] else s.outs[o := out])
    ensures Counts(s', tuner) && (Served(s, anyType, who) ==> Served(s', anyType, who))
  {
    hide WantedPids, Proper;
    forall p | 0 <= p < MAX_PIDS ensures Counted(s'.pids[p], p, |s'.outs|, tuner) {
      assert Counted(s.pids[p], p, |s.outs|, tuner);
    }
    if Served(s, anyType, who) {
      forall x, p | 0 <= x < |s'.outs| && x in who && 0 <= p < MAX_PIDS
        ensures Reg(s', p, x) <==> WantsPid(s'.slots, anyType, s'.outs[x], p)
      {
        CreatedReg(s, s', o, out, anyType, x, p, who, tuner);
      }
      forall x | 0 <= x < |s'.outs| && x in who ensures Fit(s'.outs[x], who[x]) {
        assert x < |s.outs| ==> Fit(s.outs[x], who[x]);
      }
    }
  }

  lemma CreatedReg(s: State, s': State, o: nat, out: Out, anyType: bool, x: nat, p: int, who: Watch, tuner: Tuner)
    requires Counts(s, tuner) && o <= |s.outs| && (o < |s.outs| ==> !s.outs[o].valid) && out.sid == 0 && out.pids == []
    requires s' == s.(outs := if o == |s.outs| then s.outs + [out] else s.outs[o := out]) && Served(s, anyType, who)
    requires x < |s'.outs| && x in who && 0 <= p < MAX_PIDS
    ensures Reg(s', p, x) <==> WantsPid(s'.slots, anyType, s'.outs[x], p)
  {
    assert Counted(s.pids[p], p, |s.outs|, tuner);
    assert Reg(s', p, x) == Reg(s, p, x);
    if x < |s.outs| {
      assert Fit(s.outs[x], who[x]);
      assert Reg(s, p, x) <==> WantsPid(s.slots, anyType, s.outs[x], p);
    }
  }

  lemma Opened(s: State, anyType: bool, tuner: Tuner, who: Watch)
    requires |s.pids| == MAX_PIDS && s.slots == [] && s.outs == []
    requires forall p :: 0 <= p < MAX_PIDS ==>
      s.pids[p] == PidState(BasePsi(p) + Extra(p), BasePsi(p), s.pids[p].fd, []) && FilterOk(s.pids[p], tuner)
    ensures Tidy(s, map[], anyType, who, tuner) && Exact(s, map[], tuner)
  {
    forall p | 0 <= p < MAX_PIDS ensures On(map[], p) == {} {
    }
  }

  predicate Same(old_: Out, new_: Out) {
    new_.passthrough == old_.passthrough && new_.sid == old_.sid && new_.pids == old_.pids
  }

  function PmtPidOf(slots: seq<Slot>, sid: int): Option<Pid> {
    if SidKnown(slots, sid) then Some(slots[Lookup(slots, sid).value].pmtPid) else None
  }

  /** So the PSI counts survive a reload exactly if the output stays with its program, or the programs'
      PMTs are on the same PID, or neither is known. */
  lemma ReloadPsi(s: State, s': State, programs: map<int, int>, oldSid: int, newSid: int)
    requires PsiAre(s, programs) && |s'.pids| == MAX_PIDS
    requires forall p :: 0 <= p < MAX_PIDS ==> s'.pids[p].psi == s.pids[p].psi + Gain(s.slots, oldSid, newSid, p)
    ensures PsiAre(s', programs) <==> oldSid == newSid || PmtPidOf(s.slots, oldSid) == PmtPidOf(s.slots, newSid)
  {
    hide On, SidKnown;
    var p, q := PmtPidOf(s.slots, oldSid), PmtPidOf(s.slots, newSid);
    if oldSid != newSid && p != q {
      var pid := if p.Some? then p.value else q.value;
      assert Gain(s.slots, oldSid, newSid, pid) != 0;
    }
  }

  // ----- program association tables -----

  function Find(entries: seq<Entry>, n: int): Option<int> {
    if entries == [] then None
    else if entries[0].program == n then Some(entries[0].pid)
    else Find(entries[1..], n)
  }

  /** pat_table_find_program, if there is a table. */
  function FindIn(pat: Option<Pat>, n: int): (r: Option<int>)
    ensures r.Some? ==> IsPid(r.value)
  {
    if pat.None? then None else
      FindPid(pat.value.entries, n);
      Find(pat.value.entries, n)
  }

  lemma {:induction false} FindPid(entries: seq<Entry>, n: int)
    ensures Find(entries, n).Some? ==> IsPid(Find(entries, n).value)
  {
    if entries != [] { FindPid(entries[1..], n); }
  }

  function With(programs: map<int, int>, e: Entry): map<int, int> {
    if e.program == 0 then programs else programs[e.program := e.pid]
  }

  ghost function Without(programs: map<int, int>, e: Entry, new_: Pat): map<int, int> {
    if e.program != 0 && Find(new_.entries, e.program).None? then programs - {e.program} else programs
  }

  /** The programs of a PAT; program 0 is the network PID. */
  function ProgramsOf(entries: seq<Entry>): map<int, int> {
    if entries == [] then map[] else With(ProgramsOf(entries[..|entries| - 1]), entries[|entries| - 1])
  }

  /** Section 2.4.4 of ISO/IEC 13818-1: a program number is defined once. */
  predicate DistinctPrograms(entries: seq<Entry>) {
    forall i, j :: 0 <= i < j < |entries| && entries[i].program != 0 ==> entries[i].program != entries[j].program
  }

  ghost predicate Agree(programs: map<int, int>, n: int, pid: Option<int>) {
    match pid case None => n !in programs case Some(p) => n in programs && programs[n] == p
  }

  ghost function Known(pat: Option<Pat>): map<int, int> {
    if pat.None? then map[] else ProgramsOf(pat.value.entries)
  }

  predicate DistinctPat(pat: Option<Pat>) {
    pat.Some? ==> DistinctPrograms(pat.value.entries)
  }

  lemma {:induction false} FindEntry(entries: seq<Entry>, n: int)
    ensures match Find(entries, n)
      case None => forall i :: 0 <= i < |entries| ==> entries[i].program != n
      case Some(p) => exists i :: 0 <= i < |entries| && entries[i].program == n && entries[i].pid == p
  {
    if entries != [] && entries[0].program != n {
      FindEntry(entries[1..], n);
      if Find(entries, n).Some? {
        var i :| 0 <= i < |entries| - 1 && entries[1..][i].program == n && entries[1..][i].pid == Find(entries, n).value;
        assert entries[i + 1].program == n;
      }
    }
  }

  lemma {:induction false} ProgramsFrom(entries: seq<Entry>, n: int)
    ensures n in ProgramsOf(entries) ==> n != 0 && exists i :: 0 <= i < |entries| && entries[i].program == n
  {
    if entries != [] && n in ProgramsOf(entries) {
      var init := entries[..|entries| - 1];
      ProgramsFrom(init, n);
      if n in ProgramsOf(init) {
        var i :| 0 <= i < |init| && init[i].program == n;
        assert entries[i].program == n;
      } else {
        assert entries[|entries| - 1].program == n;
      }
    }
  }

  lemma {:induction false} ProgramsHas(entries: seq<Entry>, i: nat)
    requires DistinctPrograms(entries) && i < |entries| && entries[i].program != 0
    ensures entries[i].program in ProgramsOf(entries) && ProgramsOf(entries)[entries[i].program] == entries[i].pid
  {
    if i < |entries| - 1 {
      ProgramsHas(entries[..|entries| - 1], i);
    }
  }

  /** Looking a program up finds what the table says. */
  lemma FindAgrees(entries: seq<Entry>, n: int)
    requires DistinctPrograms(entries) && n != 0
    ensures Agree(ProgramsOf(entries), n, Find(entries, n))
  {
    FindEntry(entries, n);
    ProgramsFrom(entries, n);
    if Find(entries, n).Some? {
      var i :| 0 <= i < |entries| && entries[i].program == n && entries[i].pid == Find(entries, n).value;
      ProgramsHas(entries, i);
    }
  }

  lemma OneProgram(n: int, pid: Pid)
    requires n != 0
    ensures ProgramsOf([]) == map[] && ProgramsOf([Entry(n, pid)]) == map[n := pid]
    ensures DistinctPrograms([]) && DistinctPrograms([Entry(n, pid)])
  {
    assert [Entry(n, pid)][..0] == [];
  }

  lemma NotBefore(entries: seq<Entry>, j: nat)
    requires DistinctPrograms(entries) && j < |entries|
    ensures entries[j].program !in ProgramsOf(entries[..j])
    ensures ProgramsOf(entries[..j + 1]) == With(ProgramsOf(entries[..j]), entries[j])
  {
    ProgramsFrom(entries[..j], entries[j].program);
    assert entries[..j + 1][..j] == entries[..j];
  }

  lemma EntryAgrees(entries: seq<Entry>, old_: Option<Pat>, j: nat, p0: map<int, int>)
    requires DistinctPrograms(entries) && j < |entries| && p0 == Known(old_) && DistinctPat(old_)
    ensures var cur := p0 + ProgramsOf(entries[..j]);
      && With(cur, entries[j]) == p0 + ProgramsOf(entries[..j + 1])
      && (entries[j].program != 0 ==> Agree(cur, entries[j].program, FindIn(old_, entries[j].program)))
  {
    NotBefore(entries, j);
    if entries[j].program != 0 && old_.Some? {
      FindAgrees(old_.value.entries, entries[j].program);
    }
  }

  /** After j entries of the old PAT were looked at. */
  ghost function Rest(old_: Pat, new_: Pat, j: nat): map<int, int>
    requires j <= |old_.entries|
  {
    var p1 := ProgramsOf(new_.entries);
    (ProgramsOf(old_.entries) + p1) - (ProgramsOf(old_.entries[..j]).Keys - p1.Keys)
  }

  lemma RestStep(old_: Pat, new_: Pat, j: nat)
    requires DistinctPrograms(new_.entries) && DistinctPrograms(old_.entries) && j < |old_.entries|
    ensures var e, cur := old_.entries[j], Rest(old_, new_, j);
      && Without(cur, e, new_) == Rest(old_, new_, j + 1)
      && (e.program != 0 && Find(new_.entries, e.program).None? ==> e.program in cur && cur[e.program] == e.pid)
  {
    var e := old_.entries[j];
    NotBefore(old_.entries, j);
    if e.program != 0 {
      FindAgrees(new_.entries, e.program);
      ProgramsHas(old_.entries, j);
    }
  }

  lemma RestIsNew(old_: Pat, new_: Pat)
    ensures Rest(old_, new_, |old_.entries|) == ProgramsOf(new_.entries)
  {
    assert old_.entries[..|old_.entries|] == old_.entries;
  }

  lemma PatFollows(s: State, s': State, programs: map<int, int>, anyType: bool, tuner: Tuner, who: Watch)
    requires s' == s.(pat := s'.pat)
    ensures Counts(s, tuner) ==> Counts(s', tuner)
    ensures Tidy(s, programs, anyType, who, tuner) ==> Tidy(s', programs, anyType, who, tuner)
    ensures Exact(s, programs, tuner) ==> Exact(s', programs, tuner)
  {
    assert forall p, o :: Reg(s', p, o) == Reg(s, p, o);
  }

  lemma {:induction false} FirstIs(outs: seq<Option<nat>>, x: Option<nat>, j: nat)
    requires j < |outs| && outs[j] == x && x !in outs[..j]
    ensures First(outs, x) == j
  {
    if j > 0 {
      assert outs[0] == outs[..j][0] && outs[..j][1..] == outs[1..][..j - 1];
      FirstIs(outs[1..], x, j - 1);
    }
  }
}
