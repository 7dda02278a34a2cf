/** What the demultiplexer remembers, said in terms of the events: which PMT a program has. */
module Ledgers {
  import opened Common
  import opened PidMap
  import opened Programs
  import opened ProgramSlots
  import opened Demultiplexer

  // ----- runs -----

  /** The current PAT. */
  function PatOf(events: seq<Event>): Option<Pat> {
    if events == [] then None
    else
      match events[|events| - 1]
      case PatCame(new_, valid) => if valid then Some(new_) else PatOf(events[..|events| - 1])
      case _ => PatOf(events[..|events| - 1])
  }

  /** The last valid PMT that came for program n on its PMT PID, since the program was there on that PID in this
      transport stream. */
  function LastPmt(events: seq<Event>, n: int): Option<PmtSection> {
    if events == [] then None
    else
      var init := events[..|events| - 1];
      match events[|events| - 1]
      case PatCame(new_, valid) =>
        if valid && PatOf(init) != Some(new_)
           && (PatOf(init).None? || PatOf(init).value.tsid != new_.tsid || FindIn(PatOf(init), n) != Find(new_.entries, n))
        then None else LastPmt(init, n)
      case PmtCame(pid, sec, valid) =>
        if valid && sec.pmt.program == n && FindIn(PatOf(init), n) == Some(pid) then Some(sec) else LastPmt(init, n)
      case _ => LastPmt(init, n)
  }

  function ToldBy(events: seq<Event>, n: int): Option<Told> {
    match FindIn(PatOf(events), n) case None => None case Some(pid) => Some(Told(pid, LastPmt(events, n)))
  }

  lemma PmtTells(slots: seq<Slot>, pid: Pid, sec: PmtSection, valid: bool)
    requires Neat(slots) && (valid && pid == 0 ==> sec.pmt.program != 0)
    ensures Neat(PmtSlots(slots, pid, sec, valid))
    ensures forall n :: n != 0 ==>
      ToldOf(PmtSlots(slots, pid, sec, valid), n) ==
        if valid && n == sec.pmt.program && ToldOf(slots, n).Some? && ToldOf(slots, n).value.pid == pid
        then Some(Told(pid, Some(sec))) else ToldOf(slots, n)
  {
    if Accepts(slots, pid, sec, valid) {
      var k := Lookup(slots, sec.pmt.program).value;
      assert sec.pmt.program != 0;
      forall n ensures Lookup(PmtSlots(slots, pid, sec, valid), n) == Lookup(slots, n) {
        LookupSame(slots, k, slots[k].(pmt := Some(sec)), n);
      }
      forall n | n != 0 && n != sec.pmt.program ensures ToldOf(PmtSlots(slots, pid, sec, valid), n) == ToldOf(slots, n) {
        assert Lookup(slots, n) != Some(k);
      }
    }
  }

  /** On every run the slots hold, for each program of the current PAT, its PMT PID and the last PMT that came
      for it since it was added, and nothing else. */
  lemma {:induction false} SlotsHoldLast(events: seq<Event>)
    requires AllDistinct(events) && NoneForZero(events)
    ensures Neat(LedgerOf(events).slots) && LedgerOf(events).pat == PatOf(events)
    ensures forall n :: n != 0 ==> ToldOf(LedgerOf(events).slots, n) == ToldBy(events, n)
  {
    if events != [] {
      var init, e := events[..|events| - 1], events[|events| - 1];
      assert e in events && forall x :: x in init ==> x in events;
      SlotsHoldLast(init);
      hide Neat, ToldOf, PatSlots, PmtSlots, DistinctPrograms;
      var l := LedgerOf(init);
      match e {
        case PatCame(new_, valid) =>
          if valid && l.pat != Some(new_) {
            assert Knows(l.slots, l.pat);
            PatTells(l.slots, l.pat, new_);
          }
        case PmtCame(pid, sec, valid) =>
          PmtTells(l.slots, pid, sec, valid);
        case _ =>
      }
    }
  }
}
