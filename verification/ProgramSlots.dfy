/** What a PAT does to the slots, program by program. */
module ProgramSlots {
  import opened Common
  import opened Programs

  /** What the slots say of a program: its PMT PID, and its PMT. */
  datatype Told = Told(pid: int, pmt: Option<PmtSection>)

  function ToldOf(slots: seq<Slot>, n: int): Option<Told> {
    match Lookup(slots, n) case None => None case Some(k) => Some(Told(slots[k].pmtPid, slots[k].pmt))
  }

  /** Live slots have distinct numbers, and free ones are empty. */
  predicate Neat(slots: seq<Slot>) {
    && FreeEmpty(slots)
    && forall i, j :: 0 <= i < j < |slots| && slots[i].sid != 0 ==> slots[i].sid != slots[j].sid
  }

  lemma FreedTells(slots: seq<Slot>, m: int)
    requires Neat(slots) && m != 0
    ensures Neat(Freed(slots, m))
    ensures forall n :: n != 0 ==> ToldOf(Freed(slots, m), n) == if n == m then None else ToldOf(slots, n)
  {
    forall n | n != 0 ensures ToldOf(Freed(slots, m), n) == if n == m then None else ToldOf(slots, n) {
      if n != m {
        LookupOther(slots, Freed(slots, m), n);
      }
    }
  }

  lemma GivenTells(slots: seq<Slot>, m: int, pid: Pid)
    requires Neat(slots) && m != 0 && Lookup(slots, m).None?
    ensures Neat(Given(slots, m, pid))
    ensures forall n :: n != 0 ==> ToldOf(Given(slots, m, pid), n) == if n == m then Some(Told(pid, None)) else ToldOf(slots, n)
  {
    var slots' := Given(slots, m, pid);
    var k := match Lookup(slots, 0) case None => |slots| case Some(i) => i;
    assert slots'[k] == Slot(m, pid, None);
    LookupIs(slots', m, k);
    forall n | n != 0 ensures ToldOf(slots', n) == if n == m then Some(Told(pid, None)) else ToldOf(slots, n) {
      if n != m {
        LookupOther(slots, slots', n);
      }
    }
  }

  lemma {:induction false} FindLast(entries: seq<Entry>, n: int)
    requires entries != []
    ensures Find(entries, n) ==
      if Find(entries[..|entries| - 1], n).Some? then Find(entries[..|entries| - 1], n)
      else if entries[|entries| - 1].program == n then Some(entries[|entries| - 1].pid) else None
  {
    if |entries| > 1 && entries[0].program != n {
      FindLast(entries[1..], n);
      assert entries[1..][..|entries| - 2] == entries[..|entries| - 1][1..];
    }
  }

  /** The programs that the slots know are those of the PAT. */
  ghost predicate Knows(slots: seq<Slot>, pat: Option<Pat>) {
    Neat(slots) && forall n :: n != 0 ==> (ToldOf(slots, n).Some? <==> FindIn(pat, n).Some?)
  }

  function Renewed(told: Option<Told>, old_: Option<Pat>, n: int, pid: int, change: bool): Option<Told> {
    if FindIn(old_, n) != Some(pid) || change then Some(Told(pid, None)) else told
  }

  lemma EntryTells(slots: seq<Slot>, e: Entry, old_: Option<Pat>, change: bool)
    requires Neat(slots) && (e.program != 0 ==> (ToldOf(slots, e.program).Some? <==> FindIn(old_, e.program).Some?))
    ensures Neat(EntrySlots(slots, e, old_, change))
    ensures forall n :: n != 0 ==>
      ToldOf(EntrySlots(slots, e, old_, change), n) ==
        if n == e.program then Renewed(ToldOf(slots, n), old_, n, e.pid, change) else ToldOf(slots, n)
  {
    hide Neat, Freed, Given;
    if ComesAnew(e, old_, change) {
      var slots' := slots;
      if FindIn(old_, e.program).Some? {
        FreedTells(slots, e.program);
        slots' := Freed(slots, e.program);
      }
      assert ToldOf(slots', e.program).None?;
      GivenTells(slots', e.program, e.pid);
    }
  }

  lemma {:induction false} EntriesTell(slots: seq<Slot>, entries: seq<Entry>, old_: Option<Pat>, change: bool)
    requires Knows(slots, old_) && DistinctPrograms(entries)
    ensures Neat(EntriesSlots(slots, entries, old_, change))
    ensures forall n :: n != 0 ==>
      ToldOf(EntriesSlots(slots, entries, old_, change), n) ==
        match Find(entries, n)
        case None => ToldOf(slots, n)
        case Some(pid) => Renewed(ToldOf(slots, n), old_, n, pid, change)
  {
    if entries != [] {
      var init, e := entries[..|entries| - 1], entries[|entries| - 1];
      EntriesTell(slots, init, old_, change);
      FindEntry(init, e.program);
      hide Neat, EntrySlots, ToldOf, Renewed;
      EntryTells(EntriesSlots(slots, init, old_, change), e, old_, change);
      forall n ensures Find(entries, n) ==
        if Find(init, n).Some? then Find(init, n) else if e.program == n then Some(e.pid) else None
      {
        FindLast(entries, n);
      }
    }
  }

  lemma {:induction false} ForgetTells(slots: seq<Slot>, entries: seq<Entry>, new_: Pat)
    requires Neat(slots)
    ensures Neat(ForgetSlots(slots, entries, new_))
    ensures forall n :: n != 0 ==>
      ToldOf(ForgetSlots(slots, entries, new_), n) ==
        if Find(entries, n).Some? && Find(new_.entries, n).None? then None else ToldOf(slots, n)
  {
    if entries != [] {
      var init, e := entries[..|entries| - 1], entries[|entries| - 1];
      ForgetTells(slots, init, new_);
      hide Neat, Freed, ToldOf;
      if Goes(e, new_) {
        FreedTells(ForgetSlots(slots, init, new_), e.program);
      }
      forall n ensures Find(entries, n) ==
        if Find(init, n).Some? then Find(init, n) else if e.program == n then Some(e.pid) else None
      {
        FindLast(entries, n);
      }
    }
  }

  lemma PatTells(slots: seq<Slot>, old_: Option<Pat>, new_: Pat)
    requires Knows(slots, old_) && DistinctPrograms(new_.entries)
    ensures Neat(PatSlots(slots, old_, new_))
    ensures forall n :: n != 0 ==>
      ToldOf(PatSlots(slots, old_, new_), n) ==
        match Find(new_.entries, n)
        case None => None
        case Some(pid) => Renewed(ToldOf(slots, n), old_, n, pid, Changes(old_, new_))
  {
    EntriesTell(slots, new_.entries, old_, Changes(old_, new_));
    hide Neat, ToldOf, EntriesSlots, ForgetSlots, Renewed;
    if old_.Some? {
      ForgetTells(EntriesSlots(slots, new_.entries, old_, Changes(old_, new_)), old_.value.entries, new_);
    }
  }

  /** A PAT of another transport stream: no PMT is kept, even if a program's number and PID are the same. */
  lemma NewStreamForgets(slots: seq<Slot>, old_: Pat, new_: Pat)
    requires Knows(slots, Some(old_)) && DistinctPrograms(new_.entries) && old_.tsid != new_.tsid
    ensures forall i :: 0 <= i < |PatSlots(slots, Some(old_), new_)| && PatSlots(slots, Some(old_), new_)[i].sid != 0 ==>
      PatSlots(slots, Some(old_), new_)[i].pmt == None
  {
    PatTells(slots, Some(old_), new_);
    var slots' := PatSlots(slots, Some(old_), new_);
    hide PatSlots;
    forall i | 0 <= i < |slots'| && slots'[i].sid != 0 ensures slots'[i].pmt == None {
      NeatTold(slots', i);
    }
  }

  lemma NeatTold(slots: seq<Slot>, i: nat)
    requires Neat(slots) && i < |slots| && slots[i].sid != 0
    ensures ToldOf(slots, slots[i].sid) == Some(Told(slots[i].pmtPid, slots[i].pmt))
  {
    LookupIs(slots, slots[i].sid, i);
  }

  /** A PAT of the same transport stream: a program that stays on its PID keeps its PMT. */
  lemma SameStreamKeeps(slots: seq<Slot>, old_: Pat, new_: Pat, n: int)
    requires Knows(slots, Some(old_)) && DistinctPrograms(new_.entries) && old_.tsid == new_.tsid
    requires n != 0 && Find(new_.entries, n).Some? && Find(new_.entries, n) == Find(old_.entries, n)
    ensures ToldOf(PatSlots(slots, Some(old_), new_), n) == ToldOf(slots, n)
  {
    PatTells(slots, Some(old_), new_);
  }

  /** The slots of a tidy state, with nothing left in free ones, know the programs. */
  lemma TidyKnows(s: State, anyType: bool, who: Watch, tuner: Tuner)
    requires Tidy(s, Known(s.pat), anyType, who, tuner) && FreeEmpty(s.slots) && DistinctPat(s.pat)
    ensures Knows(s.slots, s.pat)
  {
    hide Counts, Served, ProgramsOf;
    forall n | n != 0 ensures ToldOf(s.slots, n).Some? <==> FindIn(s.pat, n).Some? {
      if s.pat.Some? {
        FindAgrees(s.pat.value.entries, n);
      }
      if n in Known(s.pat) {
        assert HasSlot(s.slots, n);
      }
    }
  }

  /** A watched output whose program has no PMT is registered nowhere. */
  lemma NothingThrough(s: State, programs: map<int, int>, anyType: bool, who: Watch, tuner: Tuner)
    requires Tidy(s, programs, anyType, who, tuner) && forall i :: 0 <= i < |s.slots| && s.slots[i].sid != 0 ==> s.slots[i].pmt == None
    ensures forall o, p :: 0 <= o < |s.outs| && o in who && s.outs[o].sid != 0 && 0 <= p < MAX_PIDS ==> !Reg(s, p, o)
  {
    hide Counts, SlotsAre, Reg, WantsPid, Proper;
    forall o, p | 0 <= o < |s.outs| && o in who && s.outs[o].sid != 0 && 0 <= p < MAX_PIDS ensures !Reg(s, p, o) {
      WatchedClean(s, anyType, who, o);
      WantsList(s.slots, anyType, s.outs[o], p);
    }
  }

  /** What a valid PAT does to the PMTs, read off the transport stream id. */
  lemma StreamEffects(s: State, s': State, new_: Pat, anyType: bool, who: Watch, tuner: Tuner)
    requires s.pat.Some? && DistinctPat(s.pat) && Tidy(s, Known(s.pat), anyType, who, tuner) && FreeEmpty(s.slots) && DistinctPrograms(new_.entries)
    requires s'.pat == Some(new_) && Tidy(s', Known(s'.pat), anyType, who, tuner)
    requires s'.slots == if s.pat != Some(new_) then PatSlots(s.slots, s.pat, new_) else s.slots
    ensures s.pat.value.tsid != new_.tsid ==>
      && (forall i :: 0 <= i < |s'.slots| && s'.slots[i].sid != 0 ==> s'.slots[i].pmt == None)
      && (forall o, p :: 0 <= o < |s'.outs| && o in who && s'.outs[o].sid != 0 && 0 <= p < MAX_PIDS ==> !Reg(s', p, o))
    ensures s.pat.value.tsid == new_.tsid ==>
      forall n :: n != 0 && Find(new_.entries, n).Some? && Find(new_.entries, n) == Find(s.pat.value.entries, n) ==>
        ToldOf(s'.slots, n) == ToldOf(s.slots, n)
  {
    hide Tidy, PatSlots, FreeEmpty, ToldOf, Reg, Knows, DistinctPrograms;
    TidyKnows(s, anyType, who, tuner);
    if s.pat.value.tsid != new_.tsid {
      NewStreamForgets(s.slots, s.pat.value, new_);
      NothingThrough(s', Known(s'.pat), anyType, who, tuner);
    } else if s.pat != Some(new_) {
      forall n | n != 0 && Find(new_.entries, n).Some? && Find(new_.entries, n) == Find(s.pat.value.entries, n)
        ensures ToldOf(s'.slots, n) == ToldOf(s.slots, n)
      {
        SameStreamKeeps(s.slots, s.pat.value, new_, n);
      }
    }
  }
}
