/** The demultiplexer at work on its tables: PATs, PMTs and configurations come in, and PIDs are started
    and stopped. */
module Demultiplexer {
  import opened Common
  import opened PidMap
  import opened Programs
  import opened ProgramSlots

  /** A filter that the device was asked for, and its answer. */
  datatype Request = Request(pid: int, fd: int)

  class Demux {
    const tuner: Tuner
    const anyType: bool
    const pids: array<PidState>
    var slots: seq<Slot>
    var outs: seq<Out>
    var pat: Option<Pat>
    ghost var stops: seq<(nat, int)>
    ghost var asked: seq<Request>

    /** demux_Open, without EMM; in budget mode one filter lets everything through. */
    constructor (tuner: Tuner, anyType: bool, ghost who: Watch)
      ensures pids.Length == MAX_PIDS && fresh(pids) && slots == [] && pat == None && outs == [] && stops == []
      ensures Tidy(S(), map[], anyType, who, tuner) && Exact(S(), map[], tuner)
      ensures this.tuner == tuner && this.anyType == anyType
    {
      this.tuner, this.anyType := tuner, anyType;
      pids := new PidState[MAX_PIDS](_ => PidState(0, 0, -1, []));
      slots, outs, pat, stops, asked := [], [], None, [], [];
      new;
      hide FilterOk, Tidy, Exact;
      OpenPsi(PAT_PID);
      OpenPsi(NIT_PID);
      OpenPsi(SDT_PID);
      OpenPsi(EIT_PID);
      OpenPlain(RST_PID);
      OpenPlain(TDT_PID);
      AllClosed(tuner);
      Opened(S(), anyType, tuner, who);
    }

    lemma AllClosed(tuner: Tuner)
      ensures FilterOk(PidState(0, 0, -1, []), tuner)
    {
    }

    method OpenPlain(pid: int)
      requires pids.Length == MAX_PIDS && IsPid(pid) && pids[pid] == PidState(0, 0, -1, [])
      modifies pids, this`asked
      ensures pids[..] == old(pids[..])[pid := pids[pid]]
      ensures pids[pid] == PidState(1, 0, pids[pid].fd, []) && FilterOk(pids[pid], tuner)
    {
      SetPid(pid);
    }

    method OpenPsi(pid: int)
      requires pids.Length == MAX_PIDS && IsPid(pid) && pids[pid] == PidState(0, 0, -1, [])
      modifies pids, this`asked
      ensures pids[..] == old(pids[..])[pid := pids[pid]]
      ensures pids[pid] == PidState(1, 1, pids[pid].fd, []) && FilterOk(pids[pid], tuner)
    {
      SetPid(pid);
      pids[pid] := pids[pid].(psi := pids[pid].psi + 1);
    }

    /** output_Create, where it concerns the demultiplexer: an output that is no longer in use is taken,
        or a new one is appended. */
    method CreateOutput(valid: bool, ghost who: Watch) returns (o: nat)
      requires pids.Length == MAX_PIDS && Counts(S(), tuner)
      modifies `outs
      ensures Counts(S(), tuner) && o <= |old(outs)| && o < |outs| && outs[o] == Out(valid, 0, [], false, 0)
      ensures outs == if o == |old(outs)| then old(outs) + [outs[o]] else old(outs)[o := outs[o]]
      ensures o < |old(outs)| ==> !old(outs)[o].valid
      ensures old(Served(S(), anyType, who)) ==> Served(S(), anyType, who)
    {
      hide Counted, WantedPids, Proper;
      o := 0;
      while o < |outs| && outs[o].valid
        invariant 0 <= o <= |outs|
      {
        o := o + 1;
      }
      ghost var s := S();
      if o == |outs| {
        outs := outs + [Out(valid, 0, [], false, 0)];
      } else {
        outs := outs[o := Out(valid, 0, [], false, 0)];
      }
      Created(s, S(), o, Out(valid, 0, [], false, 0), anyType, who, tuner);
    }

    ghost function S(): State
      reads this, pids
    {
      State(pids[..], slots, outs, pat)
    }

    /** dev_SetFilter of the device at hand; it may fail, unless the device is willing. */
    method SetFilter(pid: int) returns (fd: int)
      modifies `asked
      ensures -1 <= fd && (tuner.willing ==> fd != -1)
      ensures asked == old(asked) + [Request(pid, fd)]
    {
      fd :| -1 <= fd && (tuner.willing ==> fd != -1);
      asked := asked + [Request(pid, fd)];
    }

    method SetPid(pid: int)
      requires pids.Length == MAX_PIDS && IsPid(pid)
      modifies pids, this`asked
      ensures pids[..] == old(pids[..])[pid := pids[pid]] && Raised(old(pids[pid]), pids[pid], tuner)
      ensures asked == old(asked) +
        if !tuner.budget && old(pids[pid].refcount) + 1 != 0 && old(pids[pid].fd) == -1 then [Request(pid, pids[pid].fd)] else []
    {
      pids[pid] := pids[pid].(refcount := pids[pid].refcount + 1);
      if !tuner.budget && pids[pid].refcount != 0 && pids[pid].fd == -1 {
        var fd := SetFilter(pid);
        pids[pid] := pids[pid].(fd := fd);
      }
    }

    method UnsetPid(pid: int)
      requires pids.Length == MAX_PIDS && IsPid(pid)
      modifies pids
      ensures pids[..] == old(pids[..])[pid := pids[pid]] && Lowered(old(pids[pid]), pids[pid], tuner)
    {
      pids[pid] := pids[pid].(refcount := pids[pid].refcount - 1);
      if !tuner.budget && pids[pid].refcount == 0 && pids[pid].fd != -1 {
        pids[pid] := pids[pid].(fd := -1);
      }
    }

    method StartPid(o: nat, pid: int)
      requires pids.Length == MAX_PIDS && IsPid(pid)
      modifies pids, this`asked
      ensures pids[..] == old(pids[..])[pid := pids[pid]] && Started(old(pids[pid]), pids[pid], o, tuner)
    {
      var regs := pids[pid].outs;
      var j := 0;
      while j < |regs| && regs[j] != Some(o)
        invariant 0 <= j <= |regs| && Some(o) !in regs[..j]
      {
        j := j + 1;
      }
      if j == |regs| {
        assert regs[..j] == regs;
        j := 0;
        while j < |regs| && regs[j] != None
          invariant 0 <= j <= |regs| && None !in regs[..j]
        {
          j := j + 1;
        }
        if j == |regs| {
          assert regs[..j] == regs;
          regs := regs + [None];
        } else {
          FirstIs(regs, None, j);
        }
        regs := regs[j := Some(o)];
        assert regs == Enrolled(old(pids[pid].outs), o);
        pids[pid] := pids[pid].(outs := regs);
        SetPid(pid);
      }
    }

    method StopPid(o: nat, pid: int)
      requires pids.Length == MAX_PIDS && IsPid(pid)
      modifies pids, this`stops, this`asked
      ensures pids[..] == old(pids[..])[pid := pids[pid]] && Stopped(old(pids[pid]), pids[pid], o, tuner)
      ensures stops == if Some(o) in old(pids[pid].outs) then old(stops) + [(o, pid)] else old(stops)
    {
      var regs := pids[pid].outs;
      var j := 0;
      while j < |regs| && regs[j] != Some(o)
        invariant 0 <= j <= |regs| && Some(o) !in regs[..j]
      {
        j := j + 1;
      }
      if j != |regs| {
        FirstIs(regs, Some(o), j);
        pids[pid] := pids[pid].(outs := regs[j := None]);
        stops := stops + [(o, pid)];
        UnsetPid(pid);
      } else {
        assert regs[..j] == regs;
      }
    }

    /** StartPID, as the rest of the tables sees it. */
    method Start(o: nat, pid: int)
      requires pids.Length == MAX_PIDS && IsPid(pid) && o < |outs| && Counts(S(), tuner)
      modifies pids, this`asked
      ensures Moves(old(S()), S(), tuner) && Counts(S(), tuner) && outs == old(outs)
      ensures forall q :: 0 <= q < MAX_PIDS && q != pid ==> pids[q] == old(pids[q])
      ensures forall x: nat :: Reg(S(), pid, x) <==> old(Reg(S(), pid, x)) || x == o
    {
      hide Counted, FilterOk, Started;
      ghost var s := S();
      StartPid(o, pid);
      StartedKeeps(s.pids[pid], pids[pid], o, tuner, pid, |outs|);
    }

    method Stop(o: nat, pid: int)
      requires pids.Length == MAX_PIDS && IsPid(pid) && Counts(S(), tuner)
      modifies pids, this`stops, this`asked
      ensures Moves(old(S()), S(), tuner) && Counts(S(), tuner)
      ensures forall q :: 0 <= q < MAX_PIDS && q != pid ==> pids[q] == old(pids[q])
      ensures forall x: nat :: Reg(S(), pid, x) <==> old(Reg(S(), pid, x)) && x != o
      ensures stops == old(stops) || stops == old(stops) + [(o, pid)]
    {
      hide Counted, FilterOk, Stopped;
      ghost var s := S();
      StopPid(o, pid);
      StoppedKeeps(s.pids[pid], pids[pid], o, tuner, pid, |outs|);
    }

    /** SelectPID, for one output. */
    method SelectFor(i: nat, sid: int, pid: int, pcr: bool)
      requires pids.Length == MAX_PIDS && IsPid(pid) && i < |outs| && Counts(S(), tuner)
      modifies this`outs, pids, this`asked
      ensures Moves(old(S()), S(), tuner) && Counts(S(), tuner)
      ensures outs == old(outs)[i := PcrNoted(old(outs[i]), sid, pid, pcr)]
      ensures forall q :: 0 <= q < MAX_PIDS && q != pid ==> pids[q] == old(pids[q])
      ensures forall o: nat :: Reg(S(), pid, o) <==> old(Reg(S(), pid, o)) || (o == i && Takes(old(outs[i]), sid, pid, pcr))
    {
      hide Counts, Moves, Steady;
      ghost var s := S();
      MovesNot(s, tuner);
      if outs[i].valid && outs[i].sid == sid {
        if outs[i].pids != [] && pid !in outs[i].pids {
          if pcr {
            outs := outs[i := outs[i].(pcrPid := pid)];
            PcrMoves(s, S(), tuner);
          } else {
            assert outs == outs[i := outs[i]];
            return;
          }
        }
        ghost var before := S();
        Start(i, pid);
        MovesThrough(s, before, S(), tuner);
      }
    }

    /** SelectPID */
    method SelectPid(sid: int, pid: int, pcr: bool)
      requires pids.Length == MAX_PIDS && IsPid(pid) && Counts(S(), tuner)
      modifies this`outs, pids, this`asked
      ensures Moves(old(S()), S(), tuner) && Counts(S(), tuner)
      ensures |outs| == |old(outs)| && forall o :: 0 <= o < |outs| ==> outs[o] == PcrNoted(old(outs[o]), sid, pid, pcr)
      ensures forall q :: 0 <= q < MAX_PIDS && q != pid ==> pids[q] == old(pids[q])
      ensures forall o :: 0 <= o < |outs| ==> (Reg(S(), pid, o) <==> old(Reg(S(), pid, o)) || Takes(old(outs[o]), sid, pid, pcr))
    {
      hide Counts, Moves, Reg;
      ghost var s := S();
      MovesNot(s, tuner);
      var i := 0;
      while i < |outs|
        invariant 0 <= i <= |outs| == |s.outs| && Moves(s, S(), tuner) && Counts(S(), tuner)
        invariant forall o :: 0 <= o < |outs| ==> outs[o] == if o < i then PcrNoted(s.outs[o], sid, pid, pcr) else s.outs[o]
        invariant forall q :: 0 <= q < MAX_PIDS && q != pid ==> pids[q] == s.pids[q]
        invariant forall o :: 0 <= o < |outs| ==> (Reg(S(), pid, o) <==> Reg(s, pid, o) || (o < i && Takes(s.outs[o], sid, pid, pcr)))
      {
        ghost var before := S();
        SelectFor(i, sid, pid, pcr);
        MovesThrough(s, before, S(), tuner);
        i := i + 1;
      }
    }

    /** UnselectPID */
    method UnselectPid(sid: int, pid: int)
      requires pids.Length == MAX_PIDS && IsPid(pid) && Counts(S(), tuner)
      modifies pids, this`stops, this`asked
      ensures Moves(old(S()), S(), tuner) && Counts(S(), tuner)
      ensures forall q :: 0 <= q < MAX_PIDS && q != pid ==> pids[q] == old(pids[q])
      ensures forall o :: 0 <= o < |outs| ==> (Reg(S(), pid, o) <==> old(Reg(S(), pid, o)) && !Drops(outs[o], sid))
    {
      hide Counts, Moves, Steady;
      ghost var s := S();
      MovesNot(s, tuner);
      var i := 0;
      while i < |outs|
        invariant 0 <= i <= |outs| && Moves(s, S(), tuner) && Counts(S(), tuner)
        invariant forall q :: 0 <= q < MAX_PIDS && q != pid ==> pids[q] == s.pids[q]
        invariant forall o :: 0 <= o < |outs| ==> (Reg(S(), pid, o) <==> Reg(s, pid, o) && !(o < i && Drops(outs[o], sid)))
      {
        if outs[i].valid && outs[i].sid == sid && outs[i].pids == [] {
          ghost var before := S();
          Stop(i, pid);
          MovesThrough(s, before, S(), tuner);
        }
        i := i + 1;
      }
    }

    /** mark_pmt_pids, with the marker of the old or of the new PMT. */
    method MarkPids(pmt: Pmt, marks: array<Mark>, isNew: bool)
      requires marks.Length == MAX_PIDS && PidsOk(pmt.es) && IsPid(pmt.pcrPid)
      modifies marks
      ensures forall p :: 0 <= p < MAX_PIDS ==> marks[p] == if Marked(pmt, anyType, p) then Or(old(marks[p]), isNew) else old(marks[p])
    {
      hide Selected, WouldBeSelected;
      SelectedNone(anyType);
      var pcr := pmt.pcrPid;
      if pcr != PADDING_PID {
        marks[pcr] := Or(marks[pcr], isNew);
      }
      var j := 0;
      while j < |pmt.es|
        invariant 0 <= j <= |pmt.es|
        invariant forall p :: 0 <= p < MAX_PIDS ==>
          marks[p] == if p in Selected(pmt.es[..j], anyType) || (p == pcr && pcr != PADDING_PID) then Or(old(marks[p]), isNew) else old(marks[p])
      {
        var e := pmt.es[j];
        SelectedStep(pmt.es, anyType, j);
        j := j + 1;
        if WouldBeSelected(e, anyType) {
          marks[e.pid] := Or(marks[e.pid], isNew);
        }
      }
      assert pmt.es[..j] == pmt.es;
    }

    /** One round of the loop of HandlePMT that starts and stops PIDs. */
    method Switch(sid: int, pid: int, mark: Mark, pcr: int)
      requires pids.Length == MAX_PIDS && IsPid(pid) && Counts(S(), tuner)
      modifies this`outs, pids, this`stops, this`asked
      ensures Moves(old(S()), S(), tuner) && Counts(S(), tuner)
      ensures |outs| == |old(outs)| && forall o :: 0 <= o < |outs| ==>
        outs[o] == if pid == pcr && mark == Mark(false, true) then PcrNoted(old(outs[o]), sid, pcr, true) else old(outs[o])
      ensures forall q :: 0 <= q < MAX_PIDS && q != pid ==> pids[q] == old(pids[q])
      ensures forall o :: 0 <= o < |outs| ==> (Reg(S(), pid, o) <==> RegAfter(old(Reg(S(), pid, o)), old(outs[o]), sid, pid, mark, pcr))
    {
      hide Counts, Moves, Reg;
      MovesNot(S(), tuner);
      if mark == Mark(true, false) {
        UnselectPid(sid, pid);
      } else if mark == Mark(false, true) {
        SelectPid(sid, pid, pid == pcr);
      }
    }

    method SwitchAll(sid: int, marks: array<Mark>, pcr: int)
      requires pids.Length == marks.Length == MAX_PIDS && Counts(S(), tuner) && IsPid(pcr)
      modifies this`outs, pids, this`stops, this`asked
      ensures Moves(old(S()), S(), tuner) && Counts(S(), tuner)
      ensures |outs| == |old(outs)| && forall o :: 0 <= o < |outs| ==>
        outs[o] == if marks[pcr] == Mark(false, true) then PcrNoted(old(outs[o]), sid, pcr, true) else old(outs[o])
      ensures forall q, o :: 0 <= q < MAX_PIDS && 0 <= o < |outs| ==>
        (Reg(S(), q, o) <==> RegAfter(old(Reg(S(), q, o)), old(outs[o]), sid, q, marks[q], pcr))
    {
      hide Counts, Moves;
      ghost var s := S();
      MovesNot(s, tuner);
      var pid := 0;
      while pid < MAX_PIDS
        invariant 0 <= pid <= MAX_PIDS && Moves(s, S(), tuner) && Counts(S(), tuner)
        invariant |outs| == |s.outs| && forall o :: 0 <= o < |outs| ==>
          outs[o] == if pcr < pid && marks[pcr] == Mark(false, true) then PcrNoted(s.outs[o], sid, pcr, true) else s.outs[o]
        invariant forall q :: pid <= q < MAX_PIDS ==> pids[q] == s.pids[q]
        invariant forall q, o :: 0 <= q < pid && 0 <= o < |outs| ==>
          (Reg(S(), q, o) <==> RegAfter(Reg(s, q, o), s.outs[o], sid, q, marks[q], pcr))
      {
        ghost var before := S();
        Switch(sid, pid, marks[pid], pcr);
        MovesThrough(s, before, S(), tuner);
        pid := pid + 1;
      }
    }

    /** FindSID */
    method FindSid(sid: int) returns (k: Option<nat>)
      ensures k == Lookup(slots, sid)
    {
      var i := 0;
      while i < |slots|
        invariant 0 <= i <= |slots| && forall j :: 0 <= j < i ==> slots[j].sid != sid
      {
        if slots[i].sid == sid {
          LookupIs(slots, sid, i);
          return Some(i);
        }
        i := i + 1;
      }
      return None;
    }

    method ResetPcr(sid: int)
      requires pids.Length == MAX_PIDS && Counts(S(), tuner)
      modifies `outs
      ensures Moves(old(S()), S(), tuner) && Counts(S(), tuner)
      ensures |outs| == |old(outs)| && forall o :: 0 <= o < |outs| ==> outs[o] == PcrReset(old(outs[o]), sid)
    {
      var i := 0;
      while i < |outs|
        invariant 0 <= i <= |outs| == |old(outs)|
        invariant forall o :: 0 <= o < |outs| ==> outs[o] == if o < i then PcrReset(old(outs[o]), sid) else old(outs[o])
      {
        if outs[i].valid && outs[i].sid == sid {
          outs := outs[i := outs[i].(pcrPid := 0)];
        }
        i := i + 1;
      }
      PcrMoves(old(S()), S(), tuner);
    }

    /** HandlePMT for a valid section that is to replace the PMT of slot k. */
    method ReplacePmt(k: nat, sec: PmtSection)
      requires pids.Length == MAX_PIDS && Counts(S(), tuner) && k < |slots| && slots[k].sid == sec.pmt.program
      modifies this`slots, this`outs, pids, this`stops, this`asked
      ensures Counts(S(), tuner) && Replaced(old(S()), S(), k, sec, anyType, tuner)
    {
      hide Counts, Moves, Marked, RegAfter, Reg;
      ghost var s := S();
      var marks := new Mark[MAX_PIDS](_ => Mark(false, false));
      if slots[k].pmt.Some? {
        MarkPids(slots[k].pmt.value.pmt, marks, false);
      }
      MarkPids(sec.pmt, marks, true);
      ResetPcr(sec.pmt.program);
      ghost var before := S();
      SwitchAll(sec.pmt.program, marks, sec.pmt.pcrPid);
      MovesThrough(s, before, S(), tuner);
      ghost var after := S();
      slots := slots[k := slots[k].(pmt := Some(sec))];
      CountsFollow(after, S(), tuner);
      ReplacedNow(s, before, S(), k, sec, anyType, tuner, marks[..]);
    }

    /** HandlePMT changes something only for a valid new PMT of a live program on that program's PMT PID. */
    method HandlePmt(pid: int, sec: PmtSection, valid: bool, ghost programs: map<int, int>, ghost who: Watch) returns (taken: bool)
      requires pids.Length == MAX_PIDS && Counts(S(), tuner)
      modifies this`slots, this`outs, pids, this`stops, this`asked
      ensures Counts(S(), tuner) && taken == Accepts(old(slots), pid, sec, valid)
      ensures if taken then Replaced(old(S()), S(), Lookup(old(slots), sec.pmt.program).value, sec, anyType, tuner) else S() == old(S())
      ensures taken && sec.pmt.program != 0 ==> forall o: nat :: old(Awaits(S(), anyType, o, sec.pmt.program)) ==>
        (OnWanted(S(), anyType, o) <==> Proper(sec, pid, anyType))
      ensures old(Tidy(S(), programs, anyType, who, tuner)) && (taken ==> Fine(who, sec, pid, anyType)) ==> Tidy(S(), programs, anyType, who, tuner)
      ensures old(Tidy(S(), programs, anyType, who, tuner) && Exact(S(), programs, tuner)) ==> Exact(S(), programs, tuner)
    {
      hide Counts, Replaced, Tidy, Exact, Proper, Awaits, OnWanted, Fine;
      ghost var s := S();
      var k := FindSid(sec.pmt.program);
      if k.None? {
        return false;
      }
      if pid != slots[k.value].pmtPid {
        return false;
      }
      if slots[k.value].pmt == Some(sec) {
        return false;
      }
      if !valid {
        return false;
      }
      ReplacePmt(k.value, sec);
      ReplacedKeeps(s, S(), k.value, sec, anyType, tuner, programs, who);
      if sec.pmt.program != 0 {
        forall o: nat | Awaits(s, anyType, o, sec.pmt.program) ensures OnWanted(S(), anyType, o) <==> Proper(sec, pid, anyType) {
          ReplacedOnWanted(s, S(), k.value, sec, anyType, tuner, o);
        }
      }
      return true;
    }

    /** SelectPMT, when all programs' PMTs are read. */
    method SelectPmt(pid: int)
      requires pids.Length == MAX_PIDS && IsPid(pid) && Counts(S(), tuner)
      modifies pids, this`asked
      ensures Shifts(old(S()), S(), pid, 1, tuner) && Counts(S(), tuner)
      ensures forall p, o :: 0 <= p < MAX_PIDS && 0 <= o < |outs| ==> (Reg(S(), p, o) <==> old(Reg(S(), p, o)))
    {
      pids[pid] := pids[pid].(psi := pids[pid].psi + 1);
      SetPid(pid);
      ShiftCounts(old(S()), S(), pid, 1, tuner);
    }

    /** UnselectPMT */
    method UnselectPmt(pid: int)
      requires pids.Length == MAX_PIDS && IsPid(pid) && Counts(S(), tuner)
      modifies pids, this`asked
      ensures Shifts(old(S()), S(), pid, -1, tuner) && Counts(S(), tuner)
      ensures forall p, o :: 0 <= p < MAX_PIDS && 0 <= o < |outs| ==> (Reg(S(), p, o) <==> old(Reg(S(), p, o)))
    {
      pids[pid] := pids[pid].(psi := pids[pid].psi - 1);
      UnsetPid(pid);
      ShiftCounts(old(S()), S(), pid, -1, tuner);
    }

    /** The part of DeleteProgram that looks at the PMT. */
    method UnselectStreams(sid: int, slot: Slot)
      requires pids.Length == MAX_PIDS && Counts(S(), tuner) && slot.pmt.Some?
      modifies pids, this`stops, this`asked
      ensures Moves(old(S()), S(), tuner) && Counts(S(), tuner)
      ensures forall p, o :: 0 <= p < MAX_PIDS && 0 <= o < |outs| ==>
        (Reg(S(), p, o) <==> old(Reg(S(), p, o)) && !(Leaves(slot, anyType, p) && Drops(outs[o], sid)))
    {
      hide Counts, Moves, Selected, WouldBeSelected;
      SelectedNone(anyType);
      ghost var s := S();
      MovesNot(s, tuner);
      var pmt := slot.pmt.value.pmt;
      var pcrLeaves := pmt.pcrPid != PADDING_PID && pmt.pcrPid != slot.pmtPid;
      if pcrLeaves {
        UnselectPid(sid, pmt.pcrPid);
      }
      var j := 0;
      while j < |pmt.es|
        invariant 0 <= j <= |pmt.es| && Moves(s, S(), tuner) && Counts(S(), tuner)
        invariant forall p, o :: 0 <= p < MAX_PIDS && 0 <= o < |outs| ==>
          (Reg(S(), p, o) <==> Reg(s, p, o) && !((p in Selected(pmt.es[..j], anyType) || (pcrLeaves && p == pmt.pcrPid)) && Drops(outs[o], sid)))
      {
        var e := pmt.es[j];
        SelectedStep(pmt.es, anyType, j);
        j := j + 1;
        if WouldBeSelected(e, anyType) {
          ghost var before := S();
          UnselectPid(sid, e.pid);
          MovesThrough(s, before, S(), tuner);
          assert forall p, o :: 0 <= p < MAX_PIDS && p != e.pid ==> Reg(S(), p, o) == Reg(before, p, o);
        }
      }
      assert pmt.es[..j] == pmt.es;
    }

    /** DeleteProgram */
    method DeleteProgram(sid: int, pid: int)
      requires pids.Length == MAX_PIDS && IsPid(pid) && Counts(S(), tuner)
      modifies this`slots, pids, this`stops, this`asked
      ensures Deleted(old(S()), S(), sid, pid, anyType, tuner) && Counts(S(), tuner)
    {
      hide Counts, Moves, Shifts, Leaves;
      ghost var s := S();
      UnselectPmt(pid);
      ghost var before := S();
      var k := FindSid(sid);
      if k.None? {
        return;
      }
      MovesNot(before, tuner);
      if slots[k.value].pmt.Some? {
        UnselectStreams(sid, slots[k.value]);
      } else {
        NothingLeaves(slots[k.value], anyType);
      }
      ShiftThenMove(s, before, S(), pid, -1, tuner);
      ghost var after := S();
      slots := slots[k.value := FREE];
      ShiftsFollow(s, after, S(), pid, -1, tuner);
      CountsFollow(after, S(), tuner);
      assert forall p, o :: Reg(S(), p, o) == Reg(after, p, o);
    }

    /** The new slot of HandlePAT. */
    method AddProgram(sid: int, pid: Pid)
      requires pids.Length == MAX_PIDS && IsPid(pid) && Counts(S(), tuner)
      modifies this`slots, pids, this`asked
      ensures Added(old(S()), S(), sid, pid, tuner) && Counts(S(), tuner)
    {
      hide Counts, Shifts;
      ghost var s := S();
      SelectPmt(pid);
      ghost var after := S();
      var k := FindSid(0);
      if k.None? {
        slots := slots + [Slot(sid, pid, None)];
      } else {
        slots := slots[k.value := slots[k.value].(sid := sid, pmtPid := pid)];
      }
      ShiftsFollow(s, after, S(), pid, 1, tuner);
      CountsFollow(after, S(), tuner);
      assert forall p, o :: Reg(S(), p, o) == Reg(after, p, o);
    }

    /** One entry of a new PAT. */
    method HandleEntry(e: Entry, old_: Option<Pat>, change: bool, ghost good: bool, ghost exact: bool, ghost cur: map<int, int>, ghost who: Watch)
      requires pids.Length == MAX_PIDS && Counts(S(), tuner)
      requires good ==> Tidy(S(), cur, anyType, who, tuner) && (exact ==> Exact(S(), cur, tuner))
      requires good && e.program != 0 ==> Agree(cur, e.program, FindIn(old_, e.program))
      modifies this`slots, pids, this`stops, this`asked
      ensures Counts(S(), tuner)
      ensures good ==> Tidy(S(), With(cur, e), anyType, who, tuner) && (exact ==> Exact(S(), With(cur, e), tuner))
      ensures slots == EntrySlots(old(slots), e, old_, change) && NoneStarted(old(S()), S())
    {
      hide Tidy, Exact, Counts, Deleted, Added, Reg, Given, Freed;
      if e.program == 0 {
        return;
      }
      var oldPid := FindIn(old_, e.program);
      if oldPid.None? || oldPid.value != e.pid || change {
        ghost var s, now := S(), cur;
        if oldPid.Some? {
          DeleteProgram(e.program, oldPid.value);
          DeletedStarts(s, S(), e.program, oldPid.value, anyType, tuner);
          if good {
            DeletedKeeps(s, S(), e.program, oldPid.value, anyType, tuner, cur, who);
            now := cur - {e.program};
          }
        }
        s := S();
        AddProgram(e.program, e.pid);
        AddedStarts(s, S(), e.program, e.pid, tuner);
        if good {
          AddedKeeps(s, S(), e.program, e.pid, anyType, tuner, now, who);
          assert now[e.program := e.pid] == With(cur, e);
        }
      } else {
        assert good ==> With(cur, e) == cur;
      }
    }

    /** An entry of the old PAT. */
    method ForgetEntry(e: Entry, new_: Pat, ghost good: bool, ghost exact: bool, ghost cur: map<int, int>, ghost who: Watch)
      requires pids.Length == MAX_PIDS && Counts(S(), tuner)
      requires good ==> Tidy(S(), cur, anyType, who, tuner) && (exact ==> Exact(S(), cur, tuner))
      requires good && e.program != 0 && Find(new_.entries, e.program).None? ==> e.program in cur && cur[e.program] == e.pid
      modifies this`slots, pids, this`stops, this`asked
      ensures Counts(S(), tuner)
      ensures good ==> Tidy(S(), Without(cur, e, new_), anyType, who, tuner) && (exact ==> Exact(S(), Without(cur, e, new_), tuner))
      ensures slots == if Goes(e, new_) then Freed(old(slots), e.program) else old(slots)
      ensures NoneStarted(old(S()), S())
    {
      hide Tidy, Exact, Counts, Deleted, Reg, Freed;
      if e.program == 0 {
        return;
      }
      if Find(new_.entries, e.program).None? {
        ghost var s := S();
        DeleteProgram(e.program, e.pid);
        DeletedStarts(s, S(), e.program, e.pid, anyType, tuner);
        if good {
          DeletedKeeps(s, S(), e.program, e.pid, anyType, tuner, cur, who);
        }
      }
    }

    /** The first loop of HandlePAT. */
    method HandleEntries(new_: Pat, old_: Option<Pat>, change: bool, ghost good: bool, ghost exact: bool, ghost p0: map<int, int>, ghost who: Watch)
      requires pids.Length == MAX_PIDS && Counts(S(), tuner)
      requires good ==> DistinctPrograms(new_.entries) && Tidy(S(), p0, anyType, who, tuner) && (exact ==> Exact(S(), p0, tuner))
      requires good ==> p0 == Known(old_) && (old_.Some? ==> DistinctPrograms(old_.value.entries))
      modifies this`slots, pids, this`stops, this`asked
      ensures Counts(S(), tuner)
      ensures good ==> var p := p0 + ProgramsOf(new_.entries); Tidy(S(), p, anyType, who, tuner) && (exact ==> Exact(S(), p, tuner))
      ensures slots == EntriesSlots(old(slots), new_.entries, old_, change) && NoneStarted(old(S()), S())
    {
      hide Tidy, Exact, Counts, With, DistinctPrograms, Agree, EntrySlots, Reg;
      var j := 0;
      ghost var cur := p0;
      assert new_.entries[..0] == [] && p0 + map[] == p0;
      while j < |new_.entries|
        invariant 0 <= j <= |new_.entries| && Counts(S(), tuner)
        invariant slots == EntriesSlots(old(slots), new_.entries[..j], old_, change) && NoneStarted(old(S()), S())
        invariant good ==> cur == p0 + ProgramsOf(new_.entries[..j])
        invariant good ==> Tidy(S(), cur, anyType, who, tuner) && (exact ==> Exact(S(), cur, tuner))
      {
        var e := new_.entries[j];
        if good {
          EntryAgrees(new_.entries, old_, j, p0);
        }
        HandleEntry(e, old_, change, good, exact, cur, who);
        cur := With(cur, e);
        assert new_.entries[..j + 1][..j] == new_.entries[..j];
        j := j + 1;
      }
      assert new_.entries[..j] == new_.entries;
    }

    /** The second loop of HandlePAT. */
    method ForgetEntries(old_: Pat, new_: Pat, ghost good: bool, ghost exact: bool, ghost who: Watch)
      requires pids.Length == MAX_PIDS && Counts(S(), tuner)
      requires good ==> DistinctPrograms(new_.entries) && DistinctPrograms(old_.entries)
      requires good ==> var p := ProgramsOf(old_.entries) + ProgramsOf(new_.entries); Tidy(S(), p, anyType, who, tuner) && (exact ==> Exact(S(), p, tuner))
      modifies this`slots, pids, this`stops, this`asked
      ensures Counts(S(), tuner)
      ensures good ==> var p := ProgramsOf(new_.entries); Tidy(S(), p, anyType, who, tuner) && (exact ==> Exact(S(), p, tuner))
      ensures slots == ForgetSlots(old(slots), old_.entries, new_) && NoneStarted(old(S()), S())
    {
      hide Tidy, Exact, Counts, Without, DistinctPrograms, Freed, Goes, Reg;
      var j := 0;
      ghost var cur := ProgramsOf(old_.entries) + ProgramsOf(new_.entries);
      assert cur == Rest(old_, new_, 0);
      while j < |old_.entries|
        invariant 0 <= j <= |old_.entries| && Counts(S(), tuner)
        invariant slots == ForgetSlots(old(slots), old_.entries[..j], new_) && NoneStarted(old(S()), S())
        invariant good ==> cur == Rest(old_, new_, j)
        invariant good ==> Tidy(S(), cur, anyType, who, tuner) && (exact ==> Exact(S(), cur, tuner))
      {
        var e := old_.entries[j];
        if good {
          RestStep(old_, new_, j);
        }
        ForgetEntry(e, new_, good, exact, cur, who);
        cur := Without(cur, e, new_);
        assert old_.entries[..j + 1][..j] == old_.entries[..j];
        j := j + 1;
      }
      assert old_.entries[..j] == old_.entries;
      RestIsNew(old_, new_);
    }

    /** HandlePAT: whatever programs come, go, move to other PIDs, or change with the transport stream,
        the tables afterwards are those of the new PAT. */
    method HandlePat(new_: Pat, valid: bool, ghost who: Watch)
      requires pids.Length == MAX_PIDS && Counts(S(), tuner)
      modifies this`slots, this`pat, pids, this`stops, this`asked
      ensures Counts(S(), tuner) && pat == if valid then Some(new_) else old(pat)
      ensures DistinctPat(old(pat)) && DistinctPat(pat) && old(Tidy(S(), Known(pat), anyType, who, tuner)) ==>
        && Tidy(S(), Known(pat), anyType, who, tuner)
        && (old(Exact(S(), Known(pat), tuner)) ==> Exact(S(), Known(pat), tuner))
      ensures slots == if valid && old(pat) != Some(new_) then PatSlots(old(slots), old(pat), new_) else old(slots)
      ensures NoneStarted(old(S()), S())
      ensures valid && old(OfStream(who) && pat.value.tsid != new_.tsid) && DistinctPrograms(new_.entries) ==>
        && (forall i :: 0 <= i < |slots| && slots[i].sid != 0 ==> slots[i].pmt == None)
        && (forall o, p :: 0 <= o < |outs| && o in who && outs[o].sid != 0 && 0 <= p < MAX_PIDS ==> !Reg(S(), p, o))
      ensures valid && old(OfStream(who) && pat.value.tsid == new_.tsid) && DistinctPrograms(new_.entries) ==>
        forall n :: n != 0 && Find(new_.entries, n).Some? && Find(new_.entries, n) == Find(old(pat).value.entries, n) ==>
          ToldOf(slots, n) == old(ToldOf(slots, n))
    {
      hide Tidy, Exact, Counts, DistinctPrograms, PatSlots, FreeEmpty, ToldOf, Reg;
      ghost var s := S();
      TakePat(new_, valid, who);
      if valid && DistinctPrograms(new_.entries) && old(OfStream(who)) {
        StreamEffects(s, S(), new_, anyType, who, tuner);
      }
    }

    method TakePat(new_: Pat, valid: bool, ghost who: Watch)
      requires pids.Length == MAX_PIDS && Counts(S(), tuner)
      modifies this`slots, this`pat, pids, this`stops, this`asked
      ensures Counts(S(), tuner) && pat == if valid then Some(new_) else old(pat)
      ensures DistinctPat(old(pat)) && DistinctPat(pat) && old(Tidy(S(), Known(pat), anyType, who, tuner)) ==>
        && Tidy(S(), Known(pat), anyType, who, tuner)
        && (old(Exact(S(), Known(pat), tuner)) ==> Exact(S(), Known(pat), tuner))
      ensures slots == if valid && old(pat) != Some(new_) then PatSlots(old(slots), old(pat), new_) else old(slots)
      ensures NoneStarted(old(S()), S())
    {
      hide Tidy, Exact, Counts, DistinctPrograms, EntriesSlots, ForgetSlots;
      if pat == Some(new_) {
        return;
      }
      if !valid {
        return;
      }
      ghost var good, exact := DistinctPat(pat) && DistinctPrograms(new_.entries) && Tidy(S(), Known(pat), anyType, who, tuner), Exact(S(), Known(pat), tuner);
      ghost var s, p0 := S(), Known(pat);
      var old_ := pat;
      pat := Some(new_);
      PatFollows(s, S(), p0, anyType, tuner, who);
      var change := old_.None? || new_.tsid != old_.value.tsid;
      HandleEntries(new_, old_, change, good, exact, p0, who);
      if old_.Some? {
        ForgetEntries(old_.value, new_, good, exact, who);
      } else {
        assert p0 + ProgramsOf(new_.entries) == ProgramsOf(new_.entries);
      }
    }

    /** There is a transport stream, its PAT and the slots are in order, and nothing is left in free slots. */
    ghost predicate OfStream(who: Watch)
      reads this, pids
    {
      pat.Some? && DistinctPat(pat) && Tidy(S(), Known(pat), anyType, who, tuner) && FreeEmpty(slots)
    }

    // ----- configuration -----

    /** GetPIDS */
    method GetPids(sid: int, list: seq<Pid>) returns (wanted: seq<Pid>, pcr: int)
      ensures (wanted, pcr) == WantedPids(slots, sid, list, anyType)
    {
      hide Selected, WouldBeSelected;
      SelectedNone(anyType);
      pcr := 0;
      wanted := [];
      if list != [] || sid == 0 {
        wanted := list;
        if sid == 0 {
          return;
        }
      }
      var k := FindSid(sid);
      if k.None? {
        return;
      }
      var slot := slots[k.value];
      if slot.pmt.None? {
        return;
      }
      var pmt := slot.pmt.value.pmt;
      var j := 0;
      while j < |pmt.es|
        invariant 0 <= j <= |pmt.es|
        invariant wanted == if list != [] then list else Selected(pmt.es[..j], anyType)
      {
        var e := pmt.es[j];
        SelectedStep(pmt.es, anyType, j);
        j := j + 1;
        if list == [] {
          if WouldBeSelected(e, anyType) {
            wanted := wanted + [e.pid];
          }
        }
      }
      assert pmt.es[..j] == pmt.es;
      if pmt.pcrPid != PADDING_PID && pmt.pcrPid != slot.pmtPid && pmt.pcrPid !in wanted {
        wanted := wanted + [pmt.pcrPid];
        pcr := pmt.pcrPid;
      }
    }

    /** demux_Change: every PID that the old configuration wanted and the new one does not is stopped. */
    method StopUnwanted(o: nat, current: seq<Pid>, wanted: seq<Pid>)
      requires pids.Length == MAX_PIDS && Counts(S(), tuner)
      modifies pids, this`stops, this`asked
      ensures Moves(old(S()), S(), tuner) && Counts(S(), tuner)
      ensures forall p, x :: 0 <= p < MAX_PIDS && x >= 0 ==>
        (Reg(S(), p, x) <==> old(Reg(S(), p, x)) && !(x == o && p in current && p !in wanted))
      ensures StopsOnly(old(stops), stops, o, wanted)
    {
      hide Counts, Moves;
      ghost var s := S();
      MovesNot(s, tuner);
      var i := 0;
      while i < |current|
        invariant 0 <= i <= |current| && Moves(s, S(), tuner) && Counts(S(), tuner)
        invariant forall p, x :: 0 <= p < MAX_PIDS && x >= 0 ==>
          (Reg(S(), p, x) <==> Reg(s, p, x) && !(x == o && p in current[..i] && p !in wanted))
        invariant StopsOnly(old(stops), stops, o, wanted)
      {
        assert current[..i + 1] == current[..i] + [current[i]];
        if current[i] !in wanted {
          ghost var before := S();
          Stop(o, current[i]);
          MovesThrough(s, before, S(), tuner);
          assert forall p, x :: 0 <= p < MAX_PIDS && p != current[i] ==> Reg(S(), p, x) == Reg(before, p, x);
        }
        i := i + 1;
      }
      assert current[..i] == current;
    }

    /** And every PID that only the new one wants is started. */
    method StartWanted(o: nat, current: seq<Pid>, wanted: seq<Pid>)
      requires pids.Length == MAX_PIDS && Counts(S(), tuner) && o < |outs|
      modifies pids, this`asked
      ensures Moves(old(S()), S(), tuner) && Counts(S(), tuner)
      ensures forall p, x :: 0 <= p < MAX_PIDS && x >= 0 ==>
        (Reg(S(), p, x) <==> old(Reg(S(), p, x)) || (x == o && p in wanted && p !in current))
    {
      hide Counts, Moves;
      ghost var s := S();
      MovesNot(s, tuner);
      var i := 0;
      while i < |wanted|
        invariant 0 <= i <= |wanted| && Moves(s, S(), tuner) && Counts(S(), tuner)
        invariant forall p, x :: 0 <= p < MAX_PIDS && x >= 0 ==>
          (Reg(S(), p, x) <==> Reg(s, p, x) || (x == o && p in wanted[..i] && p !in current))
      {
        assert wanted[..i + 1] == wanted[..i] + [wanted[i]];
        if wanted[i] !in current {
          ghost var before := S();
          Start(o, wanted[i]);
          MovesThrough(s, before, S(), tuner);
          assert forall p, x :: 0 <= p < MAX_PIDS && p != wanted[i] ==> Reg(S(), p, x) == Reg(before, p, x);
        }
        i := i + 1;
      }
      assert wanted[..i] == wanted;
    }

    method Reassign(o: nat, current: seq<Pid>, wanted: seq<Pid>)
      requires pids.Length == MAX_PIDS && Counts(S(), tuner) && o < |outs|
      modifies pids, this`stops, this`asked
      ensures Moves(old(S()), S(), tuner) && Counts(S(), tuner)
      ensures forall p, x :: 0 <= p < MAX_PIDS && x >= 0 ==>
        (Reg(S(), p, x) <==> if x == o then RegChanged(old(Reg(S(), p, o)), p, current, wanted) else old(Reg(S(), p, x)))
      ensures StopsOnly(old(stops), stops, o, wanted)
    {
      hide Counts, Moves, StopsOnly;
      ghost var s := S();
      StopUnwanted(o, current, wanted);
      ghost var before := S();
      StartWanted(o, current, wanted);
      MovesThrough(s, before, S(), tuner);
    }

    /** The program's PMT is no longer read for this output ... */
    method LeaveProgram(sid: int)
      requires pids.Length == MAX_PIDS && Counts(S(), tuner)
      modifies pids, this`asked
      ensures Counts(S(), tuner) && PsiMoved(old(S()), S(), sid, -1)
      ensures !SidKnown(slots, sid) ==> S() == old(S())
    {
      hide Counts, Shifted;
      if sid != 0 {
        var k := FindSid(sid);
        if k.Some? {
          UnselectPmt(slots[k.value].pmtPid);
          ShiftsPsi(old(S()), S(), slots[k.value].pmtPid, -1, tuner);
        }
      }
    }

    /** ... but the new program's is. */
    method JoinProgram(sid: int)
      requires pids.Length == MAX_PIDS && Counts(S(), tuner)
      modifies pids, this`asked
      ensures Counts(S(), tuner) && PsiMoved(old(S()), S(), sid, 1)
      ensures !SidKnown(slots, sid) ==> S() == old(S())
    {
      hide Counts, Shifted;
      if sid != 0 {
        var k := FindSid(sid);
        if k.Some? {
          SelectPmt(slots[k.value].pmtPid);
          ShiftsPsi(old(S()), S(), slots[k.value].pmtPid, 1, tuner);
        }
      }
    }

    /** What demux_Change does to the PIDs. */
    method ChangePids(o: nat, oldSid: int, newSid: int, current: seq<Pid>, wanted: seq<Pid>)
      requires pids.Length == MAX_PIDS && Counts(S(), tuner) && o < |outs|
      modifies pids, this`stops, this`asked
      ensures Counts(S(), tuner) && S() == old(S()).(pids := pids[..])
      ensures forall p, x :: 0 <= p < MAX_PIDS && 0 <= x < |outs| ==>
        (Reg(S(), p, x) <==> if x == o then RegChanged(old(Reg(S(), p, o)), p, current, wanted) else old(Reg(S(), p, x)))
      ensures forall p :: 0 <= p < MAX_PIDS ==> pids[p].psi == old(pids[p].psi) + Gain(slots, oldSid, newSid, p)
      ensures StopsOnly(old(stops), stops, o, wanted)
      ensures oldSid == newSid || (!SidKnown(slots, oldSid) && !SidKnown(slots, newSid)) ==> Moves(old(S()), S(), tuner)
    {
      hide Counts, Moves, StopsOnly, RegChanged;
      ghost var s := S();
      if newSid != oldSid {
        LeaveProgram(oldSid);
      }
      ghost var s1 := S();
      Reassign(o, current, wanted);
      MovesPsi(s1, S(), tuner);
      ghost var s2 := S();
      if newSid != oldSid {
        JoinProgram(newSid);
      }
    }

    /** demux_Change.  Whatever was configured before: if the output was registered on what its old
        configuration wanted, it is registered on what the new one wants; no other output's
        registrations change, and no PID that is still wanted is stopped in between. */
    method Change(o: nat, new_: Out)
      requires pids.Length == MAX_PIDS && Counts(S(), tuner) && o < |outs|
      modifies this`outs, pids, this`stops, this`asked
      ensures Counts(S(), tuner) && slots == old(slots) && pat == old(pat)
      ensures |outs| == |old(outs)| && forall x :: 0 <= x < |outs| && x != o ==> outs[x] == old(outs[x])
      ensures outs[o] == new_.(pcrPid := if Same(old(outs[o]), new_) then old(outs[o].pcrPid) else WantedPids(slots, new_.sid, new_.pids, anyType).1)
      ensures Changed(old(S()), S(), o, new_, anyType)
      ensures StopsOnly(old(stops), stops, o, WantedPids(slots, new_.sid, new_.pids, anyType).0)
      ensures forall p :: 0 <= p < MAX_PIDS ==> pids[p].psi == old(pids[p].psi) + Gain(slots, old(outs[o].sid), new_.sid, p)
      ensures old(outs[o].sid) == new_.sid || (!SidKnown(slots, old(outs[o].sid)) && !SidKnown(slots, new_.sid)) ==>
        SteadyAll(old(S()), S(), tuner)
    {
      hide Counts, Moves, StopsOnly, WantedPids, RegChanged;
      ghost var s := S();
      var oldSid, oldPids := outs[o].sid, outs[o].pids;
      outs := outs[o := outs[o].(valid := new_.valid)];
      CountsFollow(s, S(), tuner);
      ghost var s1 := S();
      if new_.passthrough == outs[o].passthrough && new_.sid == oldSid && |new_.pids| == |outs[o].pids| && (new_.pids == [] || new_.pids == outs[o].pids) {
        SameChanged(s, S(), o, new_, anyType, tuner);
        NoStops(stops, o, WantedPids(slots, new_.sid, new_.pids, anyType).0);
        return;
      }
      var wanted, pcr := GetPids(new_.sid, new_.pids);
      var current, _ := GetPids(oldSid, oldPids);
      ChangePids(o, oldSid, new_.sid, current, wanted);
      ghost var s2 := S();
      outs := outs[o := new_.(pcrPid := pcr)];
      CountsFollow(s2, S(), tuner);
      SteadyFollows(s, s1, s2, S(), tuner);
      assert forall p, x :: Reg(s1, p, x) == Reg(s, p, x) && Reg(s2, p, x) == Reg(S(), p, x);
    }
  }

  // ----- whole runs -----

  /** What happens to the demultiplexer: a complete PAT, a PMT section, a configuration for an output
      that exists, a new output.  `valid` is what the table validators of the PSI library say. */
  datatype Event =
    | PatCame(pat: Pat, valid: bool)
    | PmtCame(pid: Pid, sec: PmtSection, valid: bool)
    | OutputCreated(ok: bool)
    | OutputChanged(output: nat, config: Out)

  /** The program numbers of every PAT are distinct. */
  predicate AllDistinct(events: seq<Event>) {
    forall e :: e in events && e.PatCame? ==> DistinctPrograms(e.pat.entries)
  }

  /** No valid PMT for program 0 comes on PID 0. */
  predicate NoneForZero(events: seq<Event>) {
    forall e :: e in events && e.PmtCame? && e.valid && e.pid == 0 ==> e.sec.pmt.program != 0
  }

  /** Outputs are configured before the first PAT. */
  predicate NoReload(events: seq<Event>) {
    forall i, j :: 0 <= i < j < |events| && events[i].PatCame? ==> !events[j].OutputChanged?
  }

  /** The programs that output o is given. */
  ghost function Sids(events: seq<Event>, o: nat): set<int> {
    set i | 0 <= i < |events| && events[i].OutputChanged? && events[i].output == o :: events[i].config.sid
  }

  /** Output o never has a list of PIDs besides a program, and in the PMTs of its own programs the PCR is not on
      the PMT PID unless it is selected. */
  ghost predicate Plain(events: seq<Event>, anyType: bool, o: nat) {
    && (forall e :: e in events && e.OutputChanged? && e.output == o ==> Clean(e.config) && Closable(e.config))
    && (forall e :: e in events && e.PmtCame? && e.valid && e.sec.pmt.program in Sids(events, o) ==> Proper(e.sec, e.pid, anyType))
  }

  /** The plain outputs are watched, unless a PMT for program 0 may be left in a free slot. */
  ghost function PlainOutputs(events: seq<Event>, anyType: bool): Watch {
    imap o: nat | NoneForZero(events) && Plain(events, anyType, o) :: Sids(events, o)
  }

  /** What the event asks of the outputs that are watched. */
  ghost predicate Harmless(e: Event, anyType: bool, who: Watch) {
    match e
    case PmtCame(pid, sec, valid) =>
      && (valid && Followed(who, sec.pmt.program) ==> Proper(sec, pid, anyType))
      && (valid && pid == 0 && who != imap[] ==> sec.pmt.program != 0)
    case OutputChanged(o, config) => o in who ==> Fit(config, who[o])
    case _ => true
  }

  lemma PlainHarmless(events: seq<Event>, anyType: bool, i: nat)
    requires i < |events|
    ensures Harmless(events[i], anyType, PlainOutputs(events, anyType))
  {
    hide Proper, Clean, Closable;
    var e := events[i];
    assert e in events;
    if e.OutputChanged? {
      assert e.config.sid in Sids(events, e.output);
    }
    var who := PlainOutputs(events, anyType);
    if who != imap[] {
      assert exists o :: o in who;
    }
  }

  /** Before the first PAT no program is known. */
  lemma NothingKnown(s: State, anyType: bool, sid: int, who: Watch, tuner: Tuner)
    requires Tidy(s, map[], anyType, who, tuner)
    ensures !SidKnown(s.slots, sid)
  {
  }

  lemma SteadyAllExact(s: State, s': State, programs: map<int, int>, anyType: bool, tuner: Tuner, who: Watch)
    requires Tidy(s, programs, anyType, who, tuner) && Exact(s, programs, tuner) && SteadyAll(s, s', tuner)
    ensures Exact(s', programs, tuner)
  {
    SteadyExact(s, s', programs, tuner);
  }

  /** What the whole-run theorem keeps. */
  ghost predicate Kept(d: Demux, regular: bool, exact: bool, who: Watch)
    reads d, d.pids
  {
    && d.pids.Length == MAX_PIDS && Counts(d.S(), d.tuner)
    && (regular ==> Tidy(d.S(), Known(d.pat), d.anyType, who, d.tuner) && DistinctPat(d.pat))
    && (regular && exact ==> Exact(d.S(), Known(d.pat), d.tuner))
  }

  /** What the demultiplexer remembers of PATs and PMTs. */
  datatype Ledger = Ledger(slots: seq<Slot>, pat: Option<Pat>)

  function After(l: Ledger, e: Event): Ledger {
    match e
    case PatCame(new_, valid) =>
      if valid && l.pat != Some(new_) then Ledger(PatSlots(l.slots, l.pat, new_), Some(new_)) else l
    case PmtCame(pid, sec, valid) => l.(slots := PmtSlots(l.slots, pid, sec, valid))
    case _ => l
  }

  /** It depends on the events alone. */
  function LedgerOf(events: seq<Event>): Ledger {
    if events == [] then Ledger([], None) else After(LedgerOf(events[..|events| - 1]), events[|events| - 1])
  }

  method HandlePatEvent(d: Demux, new_: Pat, valid: bool, ghost regular: bool, ghost exact: bool, ghost who: Watch)
    requires Kept(d, regular, exact, who) && (regular ==> DistinctPrograms(new_.entries))
    modifies d`slots, d`pat, d`stops, d.pids, d`asked
    ensures Kept(d, regular, exact, who)
    ensures d.slots == if valid && old(d.pat) != Some(new_) then PatSlots(old(d.slots), old(d.pat), new_) else old(d.slots)
    ensures d.pat == if valid then Some(new_) else old(d.pat)
    ensures NoneStarted(old(d.S()), d.S())
  {
    hide Tidy, Exact, Counts, DistinctPrograms, PatSlots, Reg;
    d.HandlePat(new_, valid, who);
  }

  method HandlePmtEvent(d: Demux, pid: Pid, sec: PmtSection, valid: bool, ghost regular: bool, ghost exact: bool, ghost who: Watch)
    requires Kept(d, regular, exact, who) && Harmless(PmtCame(pid, sec, valid), d.anyType, who)
    modifies d`slots, d`outs, d`stops, d.pids, d`asked
    ensures Kept(d, regular, exact, who)
    ensures d.slots == PmtSlots(old(d.slots), pid, sec, valid)
  {
    hide Tidy, Exact, Counts, DistinctPrograms, Proper, Steady, RegAfter, PcrAfter, Followed, Accepts, Awaits, OnWanted;
    ghost var s := d.S();
    if regular {
      AcceptsFine(s, Known(d.pat), d.anyType, who, pid, sec, valid, d.tuner);
    }
    var taken := d.HandlePmt(pid, sec, valid, Known(d.pat), who);
  }

  lemma AcceptsFine(s: State, programs: map<int, int>, anyType: bool, who: Watch, pid: Pid, sec: PmtSection, valid: bool, tuner: Tuner)
    requires Tidy(s, programs, anyType, who, tuner) && Harmless(PmtCame(pid, sec, valid), anyType, who)
    ensures Accepts(s.slots, pid, sec, valid) ==> Fine(who, sec, pid, anyType)
  {
    hide Counts, Proper, WantsPid, Reg, Fit, Followed, SlotsAre;
  }

  method CreateEvent(d: Demux, ok: bool, ghost regular: bool, ghost exact: bool, ghost who: Watch)
    requires Kept(d, regular, exact, who)
    modifies d`outs
    ensures Kept(d, regular, exact, who)
    ensures old(d.outs) == [] ==> d.outs == [Out(ok, 0, [], false, 0)]
  {
    hide Counts, SlotsAre, Served, DistinctPrograms, FilterOk;
    var o := d.CreateOutput(ok, who);
  }

  method ChangeEvent(d: Demux, o: nat, config: Out, ghost regular: bool, ghost exact: bool, ghost who: Watch)
    requires Kept(d, regular, exact, who) && o < |d.outs| && (o in who ==> Fit(config, who[o]))
    requires exact ==> d.pat.None?
    modifies d`outs, d`stops, d.pids, d`asked
    ensures Kept(d, regular, exact, who)
    ensures |d.outs| == |old(d.outs)| && d.outs == old(d.outs)[o := config.(pcrPid := d.outs[o].pcrPid)]
  {
    hide Counts, SlotsAre, Served, Exact, DistinctPrograms, Changed, StopsOnly, SteadyAll, Gain, SidKnown, WantedPids, Fit, OnWanted, Proper, Followed;
    ghost var s := d.S();
    d.Change(o, config);
    if regular {
      FewerServed(s, d.anyType, who, o);
      ChangedServes(s, d.S(), o, config, d.anyType, who);
      if exact {
        NothingKnown(s, d.anyType, s.outs[o].sid, who, d.tuner);
        NothingKnown(s, d.anyType, config.sid, who, d.tuner);
        SteadyAllExact(s, d.S(), map[], d.anyType, d.tuner, who);
      }
    }
  }

  method Handle(d: Demux, e: Event, ghost regular: bool, ghost exact: bool, ghost who: Watch)
    requires Kept(d, regular, exact, who) && Harmless(e, d.anyType, who)
    requires regular && e.PatCame? ==> DistinctPrograms(e.pat.entries)
    requires exact && e.OutputChanged? ==> d.pat.None?
    modifies d, d.pids
    ensures Kept(d, regular, exact, who)
    ensures d.pat != old(d.pat) ==> e.PatCame?
    ensures Ledger(d.slots, d.pat) == After(old(Ledger(d.slots, d.pat)), e)
  {
    hide Kept, DistinctPrograms, Proper, Followed, Fit, PatSlots, Accepts;
    match e {
      case PatCame(pat, valid) =>
        HandlePatEvent(d, pat, valid, regular, exact, who);
      case PmtCame(pid, sec, valid) =>
        HandlePmtEvent(d, pid, sec, valid, regular, exact, who);
      case OutputCreated(ok) =>
        CreateEvent(d, ok, regular, exact, who);
      case OutputChanged(o, config) =>
        if o < |d.outs| {
          ChangeEvent(d, o, config, regular, exact, who);
        }
    }
  }

  lemma PlainServed(s: State, events: seq<Event>, anyType: bool)
    requires Served(s, anyType, PlainOutputs(events, anyType)) && NoneForZero(events)
    ensures forall o :: 0 <= o < |s.outs| && Plain(events, anyType, o) ==> OnWanted(s, anyType, o)
  {
    hide Plain, WantsPid, Fit, Proper, Sids;
  }

  // ----- where it goes wrong -----

  lemma FitsOne()
    ensures Fit(Out(true, 1, [], false, 0), {1})
  {
  }

  lemma OneSlot(pid: Pid)
    ensures PatSlots([], None, Pat(0, 0, [Entry(1, pid)])) == [Slot(1, pid, None)]
  {
    var entries := [Entry(1, pid)];
    assert entries[..0] == [] && EntriesSlots([], entries, None, true) == EntrySlots([], entries[0], None, true);
    assert Lookup([], 0) == None;
  }

  /** An output, a PAT with one program, which the output is given. */
  method OneProgramRun(tuner: Tuner, anyType: bool, ghost who: Watch) returns (d: Demux)
    requires who == imap[0 := {1}]
    ensures fresh(d) && fresh(d.pids) && d.pids.Length == MAX_PIDS && d.tuner == tuner && d.anyType == anyType
    ensures |d.outs| == 1 && d.outs == [Out(true, 1, [], false, d.outs[0].pcrPid)]
    ensures d.pat == Some(Pat(0, 0, [Entry(1, 100)])) && d.slots == [Slot(1, 100, None)] && Known(d.pat) == map[1 := 100]
    ensures Kept(d, true, true, who)
  {
    hide Exact, Counts, SlotsAre, Served, FilterOk, DistinctPrograms, ProgramsOf, Clean, Closable, PatSlots, Changed, StopsOnly;
    OneProgram(1, 100);
    d := new Demux(tuner, anyType, who);
    FitsOne();
    CreateEvent(d, true, true, true, who);
    ChangeEvent(d, 0, Out(true, 1, [], false, 0), true, true, who);
    OneSlot(100);
    HandlePatEvent(d, Pat(0, 0, [Entry(1, 100)]), true, true, true, who);
  }

  /** A program's PCR on its PMT PID: the PMT registers the output there, although GetPIDS does not want it. */
  method PcrOnPmtPid(tuner: Tuner, anyType: bool) returns (d: Demux)
    ensures d.pids.Length == MAX_PIDS && |d.outs| == 1
    ensures Reg(d.S(), 100, 0) && !WantsPid(d.slots, anyType, d.outs[0], 100)
  {
    hide Counts, Served, Replaced, Proper, Reg, WantsPid, Exact, SlotsAre, Awaits, OnWanted, Fine;
    d := OneProgramRun(tuner, anyType, imap[0 := {1}]);
    ghost var s := d.S();
    LookupIs(d.slots, 1, 0);
    var sec: PmtSection := PmtSection(0, Pmt(1, 100, [], []));
    var taken := d.HandlePmt(100, sec, true, map[1 := 100], imap[0 := {1}]);
    PcrImproper(sec, anyType);
    ImproperBreaks(s, d.S(), 0, sec, anyType, tuner, 0);
  }

  lemma PcrImproper(sec: PmtSection, anyType: bool)
    requires sec.pmt.pcrPid == 100 && sec.pmt.es == []
    ensures !Proper(sec, 100, anyType)
  {
  }

  /** The section that a program's PMT would be, with one stream on PID 200. */
  function OnTwoHundred(program: int): (sec: PmtSection) {
    PmtSection(0, Pmt(program, PADDING_PID, [], [Es(0x02, 200, [])]))
  }

  lemma HasTwoHundred(program: int, anyType: bool)
    ensures Selected(OnTwoHundred(program).pmt.es, anyType) == [200]
    ensures Marked(OnTwoHundred(program).pmt, anyType, 200)
  {
    assert [Es(0x02, 200, [])][..0] == [];
  }

  lemma LedgerSlots()
    ensures PatSlots([Slot(1, 100, None)], Some(Pat(0, 0, [Entry(1, 100)])), Pat(1, 0, [])) == [FREE]
    ensures PmtSlots([FREE], 0, OnTwoHundred(0), true) == [Slot(0, 0, Some(OnTwoHundred(0)))]
    ensures PatSlots([Slot(0, 0, Some(OnTwoHundred(0)))], Some(Pat(1, 0, [])), Pat(2, 0, [Entry(1, 100)])) == [Slot(1, 100, Some(OnTwoHundred(0)))]
    ensures PmtSlots([Slot(1, 100, Some(OnTwoHundred(0)))], 100, OnTwoHundred(1), true) == [Slot(1, 100, Some(OnTwoHundred(1)))]
  {
    assert [Entry(1, 100)][..0] == [];
  }

  /** A program goes, a PMT for program 0 comes on PID 0 and is taken for the PMT of the free slot, and the program
      comes back: it has a PMT that is not its own, and its output is not registered on what that has. */
  method PmtForProgramZero(tuner: Tuner, anyType: bool) returns (d: Demux)
    ensures fresh(d) && fresh(d.pids) && d.pids.Length == MAX_PIDS && |d.outs| == 1 && Counts(d.S(), d.tuner) && d.tuner == tuner && d.anyType == anyType
    ensures d.outs == [Out(true, 1, [], false, d.outs[0].pcrPid)]
    ensures d.pat == Some(Pat(2, 0, [Entry(1, 100)])) && d.slots == [Slot(1, 100, Some(OnTwoHundred(0)))]
    ensures forall p :: 0 <= p < MAX_PIDS ==> !Reg(d.S(), p, 0)
    ensures SlotsAre(d.slots, Known(d.pat)) && !OnWanted(d.S(), anyType, 0)
  {
    hide Counts, Served, Exact, DistinctPrograms, ProgramsOf, SlotsAre, PatSlots, PmtSlots, Reg, Accepts;
    ghost var who: Watch := imap[0 := {1}];
    d := OneProgramRun(tuner, anyType, who);
    LedgerSlots();
    OneProgram(1, 100);
    HandlePatEvent(d, Pat(1, 0, []), true, true, true, who);
    NotRegistered(d.S(), map[], anyType, who, d.tuner);
    Unwatched(d, who);
    ZeroCame(d);
    HandlePatEvent(d, Pat(2, 0, [Entry(1, 100)]), true, true, true, imap[]);
    WantsTwoHundred(d.slots, OnTwoHundred(0), anyType, d.outs[0]);
  }

  lemma Unwatched(d: Demux, who: Watch)
    requires Kept(d, true, true, who)
    ensures Kept(d, true, true, imap[])
  {
    hide Counts, SlotsAre, Exact;
  }

  lemma NotRegistered(s: State, programs: map<int, int>, anyType: bool, who: Watch, tuner: Tuner)
    requires Tidy(s, programs, anyType, who, tuner) && s.slots == [FREE] && 0 in who
    requires |s.outs| == 1 && s.outs[0].sid == 1 && s.outs[0].pids == []
    ensures forall p :: 0 <= p < MAX_PIDS ==> !Reg(s, p, 0)
  {
    hide Counts, SlotsAre;
    assert Lookup(s.slots, 1).None?;
    WantsList(s.slots, anyType, s.outs[0], 0);
    forall p | 0 <= p < MAX_PIDS ensures !Reg(s, p, 0) {
      WantsList(s.slots, anyType, s.outs[0], p);
    }
  }

  /** The PMT for program 0 comes. */
  method ZeroCame(d: Demux)
    requires Kept(d, true, true, imap[]) && d.slots == [FREE] && Known(d.pat) == map[] && d.pat == Some(Pat(1, 0, []))
    requires |d.outs| == 1 && d.outs == [Out(true, 1, [], false, d.outs[0].pcrPid)]
    requires forall p :: 0 <= p < MAX_PIDS ==> !Reg(d.S(), p, 0)
    modifies d`slots, d`outs, d`stops, d.pids, d`asked
    ensures Kept(d, true, true, imap[]) && d.slots == [Slot(0, 0, Some(OnTwoHundred(0)))]
    ensures |d.outs| == 1 && d.outs == [Out(true, 1, [], false, d.outs[0].pcrPid)]
    ensures forall p :: 0 <= p < MAX_PIDS ==> !Reg(d.S(), p, 0)
  {
    hide Counts, Exact, DistinctPrograms, SlotsAre, Awaits, OnWanted, Served, Steady, Marked;
    assert Lookup([FREE], 0) == Some(0);
    var taken := d.HandlePmt(0, OnTwoHundred(0), true, map[], imap[]);
  }

  lemma WantsTwoHundred(slots: seq<Slot>, sec: PmtSection, anyType: bool, out: Out)
    requires slots == [Slot(1, 100, Some(sec))] && out.sid == 1 && out.pids == [] && sec == OnTwoHundred(sec.pmt.program)
    ensures WantsPid(slots, anyType, out, 200)
  {
    HasTwoHundred(sec.pmt.program, anyType);
    LookupIs(slots, 1, 0);
  }

  /** And when the program's own PMT comes, with the same stream, the output is still not registered on it. */
  method PmtForProgramZeroLasts(tuner: Tuner, anyType: bool) returns (d: Demux)
    ensures d.pids.Length == MAX_PIDS && |d.outs| == 1 && d.slots == [Slot(1, 100, Some(OnTwoHundred(1)))]
    ensures WantsPid(d.slots, anyType, d.outs[0], 200) && !Reg(d.S(), 200, 0)
  {
    hide Counts, Tidy, Exact, SlotsAre, Replaced, PmtSlots, OnWanted, Awaits, WantsPid, Reg;
    d := PmtForProgramZero(tuner, anyType);
    ghost var s := d.S();
    LookupIs(d.slots, 1, 0);
    var taken := d.HandlePmt(100, OnTwoHundred(1), true, map[1 := 100], imap[]);
    HasTwoHundred(0, anyType);
    InheritedShadows(s, d.S(), 0, OnTwoHundred(1), anyType, tuner, 0);
    ReplacedTable(s, d.S(), 0, OnTwoHundred(1), anyType, tuner);
    WantsTwoHundred(d.slots, OnTwoHundred(1), anyType, d.outs[0]);
  }

  /** A reload that takes the output off its program: its PMT is no longer read, although the program is
      still there. */
  method PmtLost(tuner: Tuner, anyType: bool) returns (d: Demux)
    ensures d.pids.Length == MAX_PIDS && 1 in Known(d.pat) && Known(d.pat)[1] == 100 && d.pids[100].psi == 0
    ensures !PsiAre(d.S(), Known(d.pat))
  {
    hide Counts, Served, Proper, Filters, Changed, StopsOnly, SteadyAll, SlotsAre, WantedPids, SidKnown;
    d := OneProgramRun(tuner, anyType, imap[0 := {1}]);
    OnOne();
    d.Change(0, Out(true, 0, [], false, 0));
    GainLost(d.slots);
  }

  lemma OnOne()
    ensures On(map[1 := 100], 100) == {1} && BasePsi(100) == 0
  {
  }

  lemma GainLost(slots: seq<Slot>)
    requires slots == [Slot(1, 100, None)]
    ensures Gain(slots, 1, 0, 100) == -1
  {
    LookupIs(slots, 1, 0);
  }

  /** Whatever happens: the reference counts are right, no output is registered twice, and slots and PAT
      are what the events make of them.  If the programs of every PAT are distinct, the live slots are the programs
      of the current PAT; if moreover outputs are not reconfigured after the first PAT, PSI counts are exact
      and no filter is open for nothing; a device that grants every filter has one open for every PID that is
      referenced, and then for no other; and if no PMT for program 0 comes on PID 0, every output that is itself
      plain, whatever the others are, is registered on exactly the PIDs that its program's current PMT calls for. */
  method Run(tuner: Tuner, anyType: bool, events: seq<Event>) returns (d: Demux)
    ensures fresh(d) && fresh(d.pids) && d.pids.Length == MAX_PIDS && Counts(d.S(), d.tuner)
    ensures tuner.willing && !tuner.budget ==> forall p :: 0 <= p < MAX_PIDS && d.pids[p].refcount > 0 ==> d.pids[p].fd != -1
    ensures AllDistinct(events) && NoReload(events) && tuner.willing && !tuner.budget ==>
      forall p :: 0 <= p < MAX_PIDS ==> (d.pids[p].fd != -1 <==> d.pids[p].refcount > 0)
    ensures Ledger(d.slots, d.pat) == LedgerOf(events)
    ensures AllDistinct(events) ==> SlotsAre(d.slots, Known(d.pat))
    ensures AllDistinct(events) && NoReload(events) ==> PsiAre(d.S(), Known(d.pat)) && Filters(d.S(), tuner)
    ensures AllDistinct(events) && NoneForZero(events) ==>
      forall o :: 0 <= o < |d.outs| && Plain(events, anyType, o) ==> OnWanted(d.S(), anyType, o)
  {
    hide DistinctPrograms, Counts, SlotsAre, Served, PsiAre, Filters, Plain, OnWanted, PlainOutputs, Harmless, After;
    ghost var who := PlainOutputs(events, anyType);
    d := new Demux(tuner, anyType, who);
    ghost var regular, exact := AllDistinct(events), NoReload(events);
    var i := 0;
    while i < |events|
      invariant 0 <= i <= |events| && fresh(d) && fresh(d.pids) && d.tuner == tuner && d.anyType == anyType
      invariant Kept(d, regular, exact, who) && Ledger(d.slots, d.pat) == LedgerOf(events[..i])
      invariant d.pat.Some? ==> exists k :: 0 <= k < i && events[k].PatCame?
    {
      PlainHarmless(events, anyType, i);
      Handle(d, events[i], regular, exact, who);
      assert events[..i + 1][..i] == events[..i];
      i := i + 1;
    }
    assert events[..i] == events;
    if regular && NoneForZero(events) {
      PlainServed(d.S(), events, anyType);
    }
    FiltersOpen(d.S(), tuner);
  }

  lemma FiltersOpen(s: State, tuner: Tuner)
    requires Counts(s, tuner)
    ensures tuner.willing && !tuner.budget ==> forall p :: 0 <= p < MAX_PIDS && s.pids[p].refcount > 0 ==> s.pids[p].fd != -1
    ensures tuner.willing && !tuner.budget && Filters(s, tuner) ==> forall p :: 0 <= p < MAX_PIDS ==> (s.pids[p].fd != -1 <==> s.pids[p].refcount > 0)
  {
    forall p | 0 <= p < MAX_PIDS ensures tuner.willing && !tuner.budget && s.pids[p].refcount > 0 ==> s.pids[p].fd != -1 {
      assert Counted(s.pids[p], p, |s.outs|, tuner);
    }
  }
}
