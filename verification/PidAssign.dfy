/** Giving streams new PIDs, on plain sequences: each stream has its original PID and the base from
    which it looks for a free one (0 leaves the stream where it is). */
module PidAssign {
  import opened Common

  datatype Want = Want(pid: int, base: int)

  /** The PID of each stream in order, and the two tables of the output. */
  datatype Assignment = Assignment(out: seq<int>, free: seq<int>, new_: seq<int>)

  predicate WantsOk(ws: seq<Want>) {
    forall w :: w in ws ==> IsPid(w.pid) && 0 <= w.base
  }

  predicate AssignmentOk(a: Assignment) {
    |a.free| == |a.new_| == MAX_PIDS && forall i :: 0 <= i < |a.out| ==> IsPid(a.out[i])
  }

  /** The first unused PID at or above n. */
  function FirstFree(free: seq<int>, n: int): (r: int)
    requires 0 <= n
    ensures n <= r && (r < |free| ==> free[r] == UNUSED_PID)
    ensures forall k :: n <= k < r && k < |free| ==> free[k] != UNUSED_PID
    decreases |free| - n
  {
    if n < |free| && free[n] != UNUSED_PID then FirstFree(free, n + 1) else n
  }

  function Extend(a: Assignment, w: Want): (a': Assignment)
    requires AssignmentOk(a) && IsPid(w.pid) && 0 <= w.base
    ensures AssignmentOk(a') && |a'.out| == |a.out| + 1
  {
    if w.base == 0 || FirstFree(a.free, w.base) >= MAX_PIDS then
      a.(out := a.out + [w.pid])
    else
      var n := FirstFree(a.free, w.base);
      Assignment(a.out + [n], a.free[n := w.pid], a.new_[w.pid := n])
  }

  function Unused(): (s: seq<int>)
    ensures |s| == MAX_PIDS && forall i :: 0 <= i < MAX_PIDS ==> s[i] == UNUSED_PID
  {
    seq(MAX_PIDS, _ => UNUSED_PID)
  }

  function Assign(ws: seq<Want>): (a: Assignment)
    requires WantsOk(ws)
    ensures AssignmentOk(a) && |a.out| == |ws|
  {
    if ws == [] then Assignment([], Unused(), Unused())
    else Extend(Assign(ws[..|ws| - 1]), ws[|ws| - 1])
  }

  lemma AssignAppend(ws: seq<Want>, w: Want)
    requires WantsOk(ws) && IsPid(w.pid) && 0 <= w.base
    ensures WantsOk(ws + [w]) && Assign(ws + [w]) == Extend(Assign(ws), w)
  {
    assert (ws + [w])[..|ws|] == ws;
  }

  // ----- room -----

  ghost function Used(free: seq<int>): set<int> {
    set n | 0 <= n < |free| && free[n] != UNUSED_PID
  }

  lemma SubsetSize(a: set<int>, b: set<int>)
    requires a <= b
    ensures |a| <= |b|
  {
    assert b == a + (b - a);
  }

  lemma {:induction false} UsedAtMost(ws: seq<Want>)
    requires WantsOk(ws)
    ensures |Used(Assign(ws).free)| <= |ws|
  {
    if ws == [] {
      assert Used(Assign(ws).free) == {};
    } else {
      var init := ws[..|ws| - 1];
      var a, a' := Assign(init), Assign(ws);
      UsedAtMost(init);
      if a'.free != a.free {
        SubsetSize(Used(a'.free), Used(a.free) + {a'.out[|init|]});
      }
    }
  }

  lemma {:induction false} Interval(base: int, n: nat) returns (s: set<int>)
    ensures |s| == n && forall k :: k in s <==> base <= k < base + n
  {
    if n == 0 {
      s := {};
    } else {
      var s' := Interval(base, n - 1);
      s := s' + {base + n - 1};
    }
  }

  /** n used PIDs cannot fill n + 1 places. */
  lemma FreeSomewhere(free: seq<int>, base: int)
    requires 0 <= base && base + |Used(free)| < |free|
    ensures FirstFree(free, base) < |free|
  {
    if FirstFree(free, base) >= |free| {
      var places := Interval(base, |Used(free)| + 1);
      SubsetSize(places, Used(free));
    }
  }

  /** Every stream that looks for a PID finds one. */
  predicate AllFit(ws: seq<Want>)
    requires WantsOk(ws)
  {
    ws == [] ||
    (AllFit(ws[..|ws| - 1]) && (ws[|ws| - 1].base != 0 ==>
       FirstFree(Assign(ws[..|ws| - 1]).free, ws[|ws| - 1].base) < MAX_PIDS))
  }

  lemma {:induction false} FitPrefix(ws: seq<Want>, k: nat)
    requires WantsOk(ws) && AllFit(ws) && k <= |ws|
    ensures AllFit(ws[..k])
    decreases |ws|
  {
    if k < |ws| {
      FitPrefix(ws[..|ws| - 1], k);
      assert ws[..|ws| - 1][..k] == ws[..k];
    } else {
      assert ws[..k] == ws;
    }
  }

  /** Enough PIDs above each base are enough. */
  lemma {:induction false} RoomMakesFit(ws: seq<Want>, count: nat)
    requires WantsOk(ws) && |ws| <= count
    requires forall w :: w in ws ==> w.base + count <= MAX_PIDS
    ensures AllFit(ws)
  {
    if ws != [] {
      var init := ws[..|ws| - 1];
      RoomMakesFit(init, count);
      UsedAtMost(init);
      FreeSomewhere(Assign(init).free, ws[|ws| - 1].base);
    }
  }

  // ----- the tables agree with the list -----

  ghost predicate Owner(out: seq<int>, ws: seq<Want>, n: int)
    requires |out| == |ws|
  {
    exists i :: 0 <= i < |ws| && ws[i].base != 0 && out[i] == n
  }

  /** A mapped stream's PID leads back to the stream and is at or above its base; mapped streams
      never share a PID; whatever is in the tables belongs to a mapped stream. */
  ghost predicate Agrees(a: Assignment, ws: seq<Want>)
    requires AssignmentOk(a) && |a.out| == |ws|
  {
    && (forall i :: 0 <= i < |ws| && ws[i].base == 0 ==> a.out[i] == ws[i].pid)
    && (forall i :: 0 <= i < |ws| && ws[i].base != 0 ==> a.free[a.out[i]] == ws[i].pid && ws[i].base <= a.out[i])
    && (forall i, j :: 0 <= i < j < |ws| && ws[i].base != 0 && ws[j].base != 0 ==> a.out[i] != a.out[j])
    && (forall n {:trigger Owner(a.out, ws, n)} :: 0 <= n < MAX_PIDS && a.free[n] != UNUSED_PID ==> Owner(a.out, ws, n))
    && (forall p :: 0 <= p < MAX_PIDS && a.new_[p] != UNUSED_PID ==> IsPid(a.new_[p]) && a.free[a.new_[p]] == p)
  }

  /** The streams that have been mapped are recorded in the first table, and no others. */
  ghost predicate Recorded(a: Assignment, ws: seq<Want>)
    requires AssignmentOk(a)
  {
    && (forall w :: w in ws && w.base != 0 && IsPid(w.pid) ==> a.new_[w.pid] != UNUSED_PID)
    && (forall p :: 0 <= p < MAX_PIDS && a.new_[p] != UNUSED_PID ==> exists w :: w in ws && w.pid == p && w.base != 0)
  }

  lemma ExtendOwned(a: Assignment, ws: seq<Want>, w: Want, n: int)
    requires AssignmentOk(a) && |a.out| == |ws| && IsPid(w.pid) && 0 <= w.base
    requires 0 <= n < MAX_PIDS && (a.free[n] != UNUSED_PID ==> Owner(a.out, ws, n))
    requires Extend(a, w).free[n] != UNUSED_PID
    ensures Owner(Extend(a, w).out, ws + [w], n)
  {
    var a', ws' := Extend(a, w), ws + [w];
    if a.free[n] != UNUSED_PID {
      var i :| 0 <= i < |ws| && ws[i].base != 0 && a.out[i] == n;
      assert ws'[i] == ws[i] && a'.out[i] == a.out[i];
    } else {
      assert ws'[|ws|] == w && a'.out[|ws|] == n;
    }
  }

  lemma ExtendAgrees(a: Assignment, ws: seq<Want>, w: Want)
    requires AssignmentOk(a) && |a.out| == |ws| && WantsOk(ws) && IsPid(w.pid) && 0 <= w.base
    requires Agrees(a, ws)
    requires w.base != 0 ==> FirstFree(a.free, w.base) < MAX_PIDS
    ensures Agrees(Extend(a, w), ws + [w])
  {
    hide Owner;
    var a', ws' := Extend(a, w), ws + [w];
    assert ws'[|ws|] == w;
    forall n | 0 <= n < MAX_PIDS && a'.free[n] != UNUSED_PID ensures Owner(a'.out, ws', n) {
      assert a.free[n] != UNUSED_PID ==> Owner(a.out, ws, n);
      ExtendOwned(a, ws, w, n);
    }
  }

  lemma ExtendRecorded(a: Assignment, ws: seq<Want>, w: Want)
    requires AssignmentOk(a) && IsPid(w.pid) && 0 <= w.base
    requires Recorded(a, ws)
    requires w.base != 0 ==> FirstFree(a.free, w.base) < MAX_PIDS
    ensures Recorded(Extend(a, w), ws + [w])
  {
    var a', ws' := Extend(a, w), ws + [w];
    assert ws'[|ws|] == w;
    forall p | 0 <= p < MAX_PIDS && a'.new_[p] != UNUSED_PID ensures exists v :: v in ws' && v.pid == p && v.base != 0 {
      if a.new_[p] != UNUSED_PID {
        var v :| v in ws && v.pid == p && v.base != 0;
        assert v in ws';
      } else {
        assert w in ws';
      }
    }
  }

  lemma AppendAgrees(ws: seq<Want>, w: Want)
    requires WantsOk(ws) && IsPid(w.pid) && 0 <= w.base
    requires w.base != 0 ==> FirstFree(Assign(ws).free, w.base) < MAX_PIDS
    requires Agrees(Assign(ws), ws)
    ensures WantsOk(ws + [w]) && Agrees(Assign(ws + [w]), ws + [w])
  {
    AssignAppend(ws, w);
    ExtendAgrees(Assign(ws), ws, w);
  }

  lemma {:induction false} AssignAgrees(ws: seq<Want>)
    requires WantsOk(ws) && AllFit(ws)
    ensures Agrees(Assign(ws), ws)
  {
    if ws != [] {
      var init, w := ws[..|ws| - 1], ws[|ws| - 1];
      assert init + [w] == ws;
      AssignAgrees(init);
      AppendAgrees(init, w);
    }
  }

  lemma {:induction false} AssignRecords(ws: seq<Want>)
    requires WantsOk(ws) && AllFit(ws)
    ensures Recorded(Assign(ws), ws)
  {
    if ws != [] {
      var init, w := ws[..|ws| - 1], ws[|ws| - 1];
      assert init + [w] == ws;
      AssignRecords(init);
      ExtendRecorded(Assign(init), init, w);
    }
  }

  // ----- what the result is good for -----

  /** What output_Flush writes for a packet on PID p. */
  function Renumber(newpids: seq<int>, p: int): int
    requires |newpids| == MAX_PIDS && IsPid(p)
  {
    if newpids[p] == UNUSED_PID then p else newpids[p]
  }

  predicate DistinctStreams(ws: seq<Want>) {
    forall i, j :: 0 <= i < j < |ws| ==> ws[i].pid != ws[j].pid
  }

  lemma OwnersPid(a: Assignment, ws: seq<Want>, i: nat)
    requires WantsOk(ws) && AssignmentOk(a) && |a.out| == |ws| && Agrees(a, ws) && Recorded(a, ws)
    requires DistinctStreams(ws) && i < |ws|
    ensures a.out[i] == Renumber(a.new_, ws[i].pid)
  {
    var p := ws[i].pid;
    if a.new_[p] != UNUSED_PID {
      assert Owner(a.out, ws, a.new_[p]);
      var k :| 0 <= k < |ws| && ws[k].base != 0 && a.out[k] == a.new_[p];
      assert a.free[a.out[k]] == ws[k].pid;
    } else {
      assert ws[i] in ws;
    }
  }

  /** Flushing rewrites a packet of stream i to the PID that was announced for stream i, if the
      program's elementary PIDs are distinct. */
  lemma AnnouncedIsSent(ws: seq<Want>, i: nat)
    requires WantsOk(ws) && AllFit(ws) && DistinctStreams(ws) && i < |ws|
    ensures var a := Assign(ws); a.out[i] == Renumber(a.new_, ws[i].pid)
  {
    AssignAgrees(ws);
    AssignRecords(ws);
    OwnersPid(Assign(ws), ws, i);
  }

  /** Mapping back undoes mapping. */
  lemma MapsBack(ws: seq<Want>, p: int)
    requires WantsOk(ws) && AllFit(ws) && IsPid(p) && Assign(ws).new_[p] != UNUSED_PID
    ensures var a := Assign(ws); IsPid(a.new_[p]) && a.free[a.new_[p]] == p
  {
    AssignAgrees(ws);
  }

  // ----- what the result is, read off the bases -----

  /** The streams that look for a PID from a place between b and p on. */
  function Wanting(ws: seq<Want>, b: int, p: int): set<nat> {
    set i: nat | i < |ws| && ws[i].base != 0 && b <= ws[i].base <= p
  }

  /** The places from some b on to p are wanted by streams enough to fill them. */
  predicate Crowded(ws: seq<Want>, p: int) {
    exists b :: 1 <= b <= p && p - b < |Wanting(ws, b, p)|
  }

  /** Nothing free was passed over. */
  ghost predicate Tight(a: Assignment, ws: seq<Want>)
    requires AssignmentOk(a) && |a.out| == |ws|
  {
    forall i, n :: 0 <= i < |ws| && ws[i].base != 0 && 0 < ws[i].base <= n < a.out[i] && n < MAX_PIDS ==> a.free[n] != UNUSED_PID
  }

  lemma {:induction false} AssignTight(ws: seq<Want>)
    requires WantsOk(ws) && AllFit(ws)
    ensures Tight(Assign(ws), ws) && forall n :: 0 <= n < MAX_PIDS && Assign(ws).free[n] != UNUSED_PID ==> n > 0
  {
    if ws != [] {
      AssignTight(ws[..|ws| - 1]);
    }
  }

  ghost function GivenTo(out: seq<int>, m: set<nat>): set<int>
    requires forall i :: i in m ==> i < |out|
  {
    set i | i in m :: out[i]
  }

  lemma {:induction false} GivenSize(out: seq<int>, m: set<nat>)
    requires forall i :: i in m ==> i < |out|
    requires forall i, j :: i in m && j in m && i != j ==> out[i] != out[j]
    ensures |GivenTo(out, m)| == |m|
  {
    if m != {} {
      var i :| i in m;
      GivenSize(out, m - {i});
      assert GivenTo(out, m) == GivenTo(out, m - {i}) + {out[i]};
    }
  }

  /** The streams that want places from b on have got as many places. */
  lemma Places(ws: seq<Want>, m: set<nat>)
    requires WantsOk(ws) && AllFit(ws) && forall i :: i in m ==> i < |ws| && ws[i].base != 0
    ensures |GivenTo(Assign(ws).out, m)| == |m|
  {
    AssignAgrees(ws);
    forall i, j | i in m && j in m && i != j ensures Assign(ws).out[i] != Assign(ws).out[j] {
      if i > j { assert Assign(ws).out[j] != Assign(ws).out[i]; }
    }
    GivenSize(Assign(ws).out, m);
  }

  /** Where the taken places that end at p begin. */
  lemma {:induction false} RunStart(free: seq<int>, p: int) returns (b: int)
    requires 0 < p < |free| && free[p] != UNUSED_PID && free[0] == UNUSED_PID
    ensures 1 <= b <= p && free[b - 1] == UNUSED_PID
    ensures forall n :: b <= n <= p ==> free[n] != UNUSED_PID
    decreases p
  {
    if free[p - 1] == UNUSED_PID { b := p; } else { b := RunStart(free, p - 1); }
  }

  /** Taken places from b to p, behind a free one, were all given to streams that look from b to p on. */
  lemma RunIsWanted(ws: seq<Want>, b: int, p: int)
    requires WantsOk(ws) && AllFit(ws) && 1 <= b <= p < MAX_PIDS
    requires Assign(ws).free[b - 1] == UNUSED_PID && forall n :: b <= n <= p ==> Assign(ws).free[n] != UNUSED_PID
    ensures p - b < |Wanting(ws, b, p)|
  {
    var a, m := Assign(ws), Wanting(ws, b, p);
    AssignAgrees(ws);
    AssignTight(ws);
    var places := Interval(b, p - b + 1);
    forall n | n in places ensures n in GivenTo(a.out, m) {
      assert Owner(a.out, ws, n);
      var i :| 0 <= i < |ws| && ws[i].base != 0 && a.out[i] == n;
      assert i in m;
    }
    SubsetSize(places, GivenTo(a.out, m));
    Places(ws, m);
  }

  /** A PID is given to a stream exactly if it is crowded. */
  lemma TakenIffCrowded(ws: seq<Want>, p: int)
    requires WantsOk(ws) && AllFit(ws) && 0 <= p < MAX_PIDS
    ensures Assign(ws).free[p] != UNUSED_PID <==> Crowded(ws, p)
  {
    var a := Assign(ws);
    AssignTight(ws);
    hide Assign, AllFit, Wanting;
    if a.free[p] != UNUSED_PID {
      var b := RunStart(a.free, p);
      RunIsWanted(ws, b, p);
    } else if Crowded(ws, p) {
      var b :| 1 <= b <= p && p - b < |Wanting(ws, b, p)|;
      StopsBefore(ws, b, p);
    }
  }

  lemma StopsAt(a: Assignment, ws: seq<Want>, i: nat, p: int)
    requires WantsOk(ws) && AssignmentOk(a) && |a.out| == |ws| && Agrees(a, ws) && Tight(a, ws)
    requires i < |ws| && 0 < ws[i].base <= p < MAX_PIDS && a.free[p] == UNUSED_PID
    ensures ws[i].base <= a.out[i] < p
  {
    assert ws[i] in ws && a.free[a.out[i]] == ws[i].pid;
  }

  /** A place that is free at the end was never passed over. */
  lemma StopsBefore(ws: seq<Want>, b: int, p: int)
    requires WantsOk(ws) && AllFit(ws) && 1 <= b <= p < MAX_PIDS && Assign(ws).free[p] == UNUSED_PID
    ensures |Wanting(ws, b, p)| <= p - b
  {
    var a, m := Assign(ws), Wanting(ws, b, p);
    AssignAgrees(ws);
    AssignTight(ws);
    hide Assign, AllFit, Agrees, Tight;
    forall i | i in m ensures b <= a.out[i] < p {
      StopsAt(a, ws, i, p);
    }
    var places := Interval(b, p - b);
    SubsetSize(GivenTo(a.out, m), places);
    Places(ws, m);
  }

  /** For every b there are places enough from b on for the streams that look from b on. */
  predicate Spacious(ws: seq<Want>) {
    forall b :: 1 <= b <= MAX_PIDS ==> |WantingFrom(ws, b)| <= MAX_PIDS - b
  }

  function WantingFrom(ws: seq<Want>, b: int): set<nat> {
    set i: nat | i < |ws| && ws[i].base != 0 && b <= ws[i].base
  }

  lemma SpaciousInit(ws: seq<Want>)
    requires ws != [] && Spacious(ws)
    ensures Spacious(ws[..|ws| - 1])
  {
    var init := ws[..|ws| - 1];
    forall b | 1 <= b <= MAX_PIDS ensures |WantingFrom(init, b)| <= MAX_PIDS - b {
      SubsetSize(WantingFrom(init, b), WantingFrom(ws, b));
    }
  }

  /** The search for a free PID stays in the table exactly then. */
  lemma {:induction false} FitsIffSpacious(ws: seq<Want>)
    requires WantsOk(ws)
    ensures AllFit(ws) <==> Spacious(ws)
  {
    if AllFit(ws) {
      forall b | 1 <= b <= MAX_PIDS ensures |WantingFrom(ws, b)| <= MAX_PIDS - b {
        FitLeavesRoom(ws, b);
      }
    }
    if Spacious(ws) && ws != [] {
      SpaciousInit(ws);
      FitsIffSpacious(ws[..|ws| - 1]);
      if ws[|ws| - 1].base != 0 {
        LastFits(ws);
      }
    }
  }

  lemma FitLeavesRoom(ws: seq<Want>, b: int)
    requires WantsOk(ws) && AllFit(ws) && 1 <= b <= MAX_PIDS
    ensures |WantingFrom(ws, b)| <= MAX_PIDS - b
  {
    var a, m := Assign(ws), WantingFrom(ws, b);
    AssignAgrees(ws);
    var places := Interval(b, MAX_PIDS - b);
    SubsetSize(GivenTo(a.out, m), places);
    Places(ws, m);
  }

  lemma LastFits(ws: seq<Want>)
    requires WantsOk(ws) && ws != [] && AllFit(ws[..|ws| - 1]) && Spacious(ws) && ws[|ws| - 1].base != 0
    ensures FirstFree(Assign(ws[..|ws| - 1]).free, ws[|ws| - 1].base) < MAX_PIDS
  {
    var init, base := ws[..|ws| - 1], ws[|ws| - 1].base;
    var free := Assign(init).free;
    if base >= MAX_PIDS {
      SubsetSize({|ws| - 1}, WantingFrom(ws, MAX_PIDS));
    } else if FirstFree(free, base) >= MAX_PIDS {
      AssignTight(init);
      var b := RunStart(free, MAX_PIDS - 1);
      assert b <= base by {
        assert free[b - 1] == UNUSED_PID;
      }
      RunIsWanted(init, b, MAX_PIDS - 1);
      SubsetSize(Wanting(init, b, MAX_PIDS - 1) + {|ws| - 1}, WantingFrom(ws, b));
    }
  }

  /** For example, a base behind the last PID, or one stream too many at the end. */
  lemma LeavesTheTable()
    ensures !AllFit([Want(50, MAX_PIDS)]) && !AllFit([Want(50, MAX_PIDS - 1), Want(51, MAX_PIDS - 1)])
  {
    var one, two := [Want(50, MAX_PIDS)], [Want(50, MAX_PIDS - 1), Want(51, MAX_PIDS - 1)];
    assert WantingFrom(one, MAX_PIDS) == {0};
    FitsIffSpacious(one);
    assert WantingFrom(two, MAX_PIDS - 1) == {0, 1};
    FitsIffSpacious(two);
  }

  /** The announced PIDs are pairwise distinct exactly when the streams left alone are on distinct
      PIDs, none of which is crowded by the others ... */
  lemma AnnouncedDistinct(ws: seq<Want>)
    requires WantsOk(ws) && AllFit(ws)
    ensures NoDup(Assign(ws).out) <==> LeftAloneApart(ws)
  {
    AssignAgrees(ws);
    DistinctIff(Assign(ws), ws);
    forall i | 0 <= i < |ws| ensures Assign(ws).free[ws[i].pid] != UNUSED_PID <==> Crowded(ws, ws[i].pid) {
      TakenIffCrowded(ws, ws[i].pid);
    }
  }

  predicate LeftAloneApart(ws: seq<Want>) {
    && (forall i :: 0 <= i < |ws| && ws[i].base == 0 ==> !Crowded(ws, ws[i].pid))
    && (forall i, j :: 0 <= i < j < |ws| && ws[i].base == ws[j].base == 0 ==> ws[i].pid != ws[j].pid)
  }

  lemma DistinctIff(a: Assignment, ws: seq<Want>)
    requires WantsOk(ws) && AssignmentOk(a) && |a.out| == |ws| && Agrees(a, ws)
    ensures NoDup(a.out) <==>
      && (forall i :: 0 <= i < |ws| && ws[i].base == 0 ==> a.free[ws[i].pid] == UNUSED_PID)
      && (forall i, j :: 0 <= i < j < |ws| && ws[i].base == ws[j].base == 0 ==> ws[i].pid != ws[j].pid)
  {
    if NoDup(a.out) {
      forall i | 0 <= i < |ws| && ws[i].base == 0 ensures a.free[ws[i].pid] == UNUSED_PID {
        assert !Owner(a.out, ws, ws[i].pid);
      }
    }
  }

  /** ... so with remapping on and non-zero bases they always are, even for repeated PIDs. */
  lemma MappedDistinct(ws: seq<Want>)
    requires WantsOk(ws) && AllFit(ws)
    requires forall w :: w in ws ==> w.base != 0
    ensures NoDup(Assign(ws).out)
  {
    AnnouncedDistinct(ws);
  }

  /** A stream with base 0 stays on its PID unrecorded, so another stream may be given that PID. */
  lemma ZeroBaseCollides()
    ensures var ws := [Want(50, 100), Want(100, 0)];
      DistinctStreams(ws) && AllFit(ws) && !NoDup(Assign(ws).out)
  {
    var ws := [Want(50, 100), Want(100, 0)];
    AssignAppend([], Want(50, 100));
    AssignAppend([Want(50, 100)], Want(100, 0));
    assert [] + [Want(50, 100)] == [Want(50, 100)] && [Want(50, 100)] + [Want(100, 0)] == ws;
    assert ws[..0] == [];
    assert Assign(ws).out[0] == 100 == Assign(ws).out[1];
  }
}
