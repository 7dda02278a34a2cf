/** PID remapping: the two tables of an output, how a stream finds its new PID, and the PMT that
    announces the result. */
module PidMap {
  import opened Common
  import opened PidAssign

  /** Indices of pi_newpids and pi_confpids. */
  const I_APID := 1
  const I_VPID := 2
  const I_SPUPID := 3

  datatype Desc = Desc(tag: int, body: seq<Byte>)

  /** An entry of a PMT's elementary stream loop. */
  datatype Es = Es(streamType: int, pid: int, descs: seq<Desc>)

  datatype Pmt = Pmt(program: int, pcrPid: int, descs: seq<Desc>, es: seq<Es>)

  /** What NewPMT looks at in the configuration: global bases win over those of the output. */
  datatype Remap = Remap(global: bool, local: bool, globalBases: seq<int>, localBases: seq<int>)

  predicate RemapOk(r: Remap) {
    && |r.globalBases| == |r.localBases| == 4
    && (forall i :: 0 <= i < 4 ==> 0 <= r.globalBases[i] < 0x1_0000)
    && (forall i :: 0 <= i < 4 ==> 0 <= r.localBases[i] < 0x1_0000)
  }

  function BaseOf(r: Remap, index: int): int
    requires RemapOk(r) && 0 <= index < 4
  {
    if r.global then r.globalBases[index] else r.localBases[index]
  }

  // ----- which base a stream is mapped from -----

  predicate AudioTag(tag: int) {
    tag == 0x6a || tag == 0x7a || tag == 0x7b || tag == 0x7c
  }

  predicate SubtitleTag(tag: int) {
    tag == 0x46 || tag == 0x56 || tag == 0x59
  }

  /** For private PES data the last telling descriptor decides. */
  function SubStream(descs: seq<Desc>): Option<int> {
    if descs == [] then None
    else
      var tag := descs[|descs| - 1].tag;
      if SubtitleTag(tag) then Some(I_SPUPID)
      else if AudioTag(tag) then Some(I_APID)
      else SubStream(descs[..|descs| - 1])
  }

  method FindSubStream(descs: seq<Desc>) returns (r: Option<int>)
    ensures r == SubStream(descs)
  {
    r := None;
    var j := 0;
    while j < |descs|
      invariant 0 <= j <= |descs|
      invariant r == SubStream(descs[..j])
    {
      var tag := descs[j].tag;
      assert descs[..j + 1][..j] == descs[..j];
      j := j + 1;
      if tag == 0x6a || tag == 0x7a || tag == 0x7b || tag == 0x7c {
        r := Some(I_APID);
      }
      if tag == 0x46 || tag == 0x56 || tag == 0x59 {
        r := Some(I_SPUPID);
      }
    }
    assert descs[..j] == descs;
  }

  predicate AudioType(t: int) {
    t == 0x03 || t == 0x04 || t == 0x0f || t == 0x11 || t == 0x81 || t == 0x87
  }

  predicate VideoType(t: int) {
    t == 0x01 || t == 0x02 || t == 0x10 || t == 0x1b || t == 0x24 || t == 0x42
  }

  /** The first PID tried for a stream; 0 leaves the stream where it is. */
  function Base(r: Remap, es: Es): (base: int)
    requires RemapOk(r) && IsPid(es.pid)
    ensures 0 <= base
  {
    if AudioType(es.streamType) then BaseOf(r, I_APID)
    else if VideoType(es.streamType) then BaseOf(r, I_VPID)
    else if es.streamType == 0x06 then
      (match SubStream(es.descs) case Some(index) => SubBase(r, index) case None => es.pid)
    else es.pid
  }

  function SubBase(r: Remap, index: int): (base: int)
    requires RemapOk(r)
    ensures 0 <= base
  {
    if index == I_APID then BaseOf(r, I_APID) else BaseOf(r, I_SPUPID)
  }

  /** The descriptor tells what the stream is, and none behind it does. */
  predicate LastTelling(descs: seq<Desc>, j: int) {
    0 <= j < |descs| && TellingTag(descs[j].tag) && forall i :: j < i < |descs| ==> !TellingTag(descs[i].tag)
  }

  lemma {:induction false} SubStreamIs(descs: seq<Desc>)
    ensures SubStream(descs).None? <==> forall d :: d in descs ==> !TellingTag(d.tag)
    ensures forall j :: LastTelling(descs, j) ==>
      SubStream(descs) == Some(if descs[j].tag in {0x46, 0x56, 0x59} then I_SPUPID else I_APID)
  {
    if descs != [] {
      var init, last := descs[..|descs| - 1], descs[|descs| - 1];
      SubStreamIs(init);
      assert descs == init + [last];
      forall j | LastTelling(descs, j)
        ensures SubStream(descs) == Some(if descs[j].tag in {0x46, 0x56, 0x59} then I_SPUPID else I_APID)
      {
        if j < |init| {
          assert !TellingTag(descs[|descs| - 1].tag);
          assert init[j] == descs[j] && forall i :: j < i < |init| ==> init[i] == descs[i];
          assert LastTelling(init, j);
        }
      }
    }
  }

  /** Audio goes to the audio base, video to the video base, private data to that of the last descriptor that tells
      what they are, and any other stream stays. */
  lemma BaseIs(r: Remap, es: Es)
    requires RemapOk(r) && IsPid(es.pid)
    ensures var bases := if r.global then r.globalBases else r.localBases;
      && (es.streamType in {0x03, 0x04, 0x0f, 0x11, 0x81, 0x87} ==> Base(r, es) == bases[I_APID])
      && (es.streamType in {0x01, 0x02, 0x10, 0x1b, 0x24, 0x42} ==> Base(r, es) == bases[I_VPID])
      && (es.streamType !in {0x01, 0x02, 0x03, 0x04, 0x06, 0x0f, 0x10, 0x11, 0x1b, 0x24, 0x42, 0x81, 0x87} ==> Base(r, es) == es.pid)
    ensures es.streamType == 0x06 && (forall d :: d in es.descs ==> !TellingTag(d.tag)) ==> Base(r, es) == es.pid
    ensures var bases := if r.global then r.globalBases else r.localBases;
      forall j :: es.streamType == 0x06 && LastTelling(es.descs, j) ==>
        Base(r, es) == bases[if es.descs[j].tag in {0x46, 0x56, 0x59} then I_SPUPID else I_APID]
  {
    SubStreamIs(es.descs);
    hide SubStream;
  }

  /** What an output without a PID list takes, and that these are the streams that are remapped, but for AVS video,
      which is remapped when its PID is listed or any type is taken. */
  lemma SelectedIsMapped(r: Remap, es: Es)
    requires RemapOk(r) && IsPid(es.pid)
    requires var bases := if r.global then r.globalBases else r.localBases; es.pid !in bases
    ensures WouldBeSelected(es, true)
    ensures WouldBeSelected(es, false) <==>
      || es.streamType in {0x01, 0x02, 0x03, 0x04, 0x0f, 0x10, 0x11, 0x1b, 0x24, 0x81, 0x87}
      || (es.streamType == 0x06 && exists d :: d in es.descs && d.tag in {0x46, 0x56, 0x59, 0x6a, 0x7a, 0x7b, 0x7c})
    ensures Base(r, es) != es.pid <==> WouldBeSelected(es, false) || es.streamType == 0x42
  {
    SubStreamIs(es.descs);
    SubStreamKinds(es.descs);
    hide SubStream, LastTelling;
  }

  // ----- the tables -----

  /** newpids is indexed by original PID, freepids by new PID. */
  class Tables {
    const newpids: array<int>
    const freepids: array<int>

    constructor ()
      ensures Valid() && fresh(newpids) && fresh(freepids)
      ensures forall p :: 0 <= p < MAX_PIDS ==> newpids[p] == freepids[p] == UNUSED_PID
    {
      newpids := new int[MAX_PIDS](_ => UNUSED_PID);
      freepids := new int[MAX_PIDS](_ => UNUSED_PID);
    }

    ghost predicate Valid()
      reads this, newpids, freepids
    {
      && newpids.Length == freepids.Length == MAX_PIDS && newpids != freepids
      && forall p :: 0 <= p < MAX_PIDS && newpids[p] != UNUSED_PID ==>
           IsPid(newpids[p]) && freepids[newpids[p]] == p
    }

    /** init_pid_mapping */
    method Init()
      requires Valid()
      modifies newpids, freepids
      ensures Valid()
      ensures forall p :: 0 <= p < MAX_PIDS ==> newpids[p] == freepids[p] == UNUSED_PID
    {
      var i := 0;
      while i < MAX_PIDS
        invariant 0 <= i <= MAX_PIDS
        invariant forall p :: 0 <= p < i ==> newpids[p] == freepids[p] == UNUSED_PID
      {
        newpids[i] := UNUSED_PID;
        freepids[i] := UNUSED_PID;
        i := i + 1;
      }
    }

    /** map_es_pid.  The search for a free PID has no bound of its own, so there must be one. */
    method MapEsPid(r: Remap, es: Es) returns (pid: int)
      requires Valid() && RemapOk(r) && IsPid(es.pid)
      requires (r.global || r.local) && Base(r, es) != 0 ==> exists n :: Base(r, es) <= n < MAX_PIDS && freepids[n] == UNUSED_PID
      modifies newpids, freepids
      ensures Valid() && IsPid(pid)
      ensures !((r.global || r.local) && Base(r, es) != 0) ==>
        pid == es.pid && newpids[..] == old(newpids[..]) && freepids[..] == old(freepids[..])
      ensures (r.global || r.local) && Base(r, es) != 0 ==>
        && pid == FirstFree(old(freepids[..]), Base(r, es))
        && newpids[..] == old(newpids[..])[es.pid := pid]
        && freepids[..] == old(freepids[..])[pid := es.pid]
    {
      if !r.global && !r.local {
        return es.pid;
      }
      var newpid := es.pid;
      if AudioType(es.streamType) {
        newpid := BaseOf(r, I_APID);
      } else if VideoType(es.streamType) {
        newpid := BaseOf(r, I_VPID);
      } else if es.streamType == 0x06 {
        var sub := FindSubStream(es.descs);
        if sub == Some(I_APID) {
          newpid := BaseOf(r, I_APID);
        }
        if sub == Some(I_SPUPID) {
          newpid := BaseOf(r, I_SPUPID);
        }
        SubStreamKinds(es.descs);
      }
      assert newpid == Base(r, es);
      if newpid == 0 {
        return es.pid;
      }
      ghost var free :| newpid <= free < MAX_PIDS && freepids[free] == UNUSED_PID;
      while freepids[newpid] != UNUSED_PID
        invariant Base(r, es) <= newpid <= free
        invariant forall n :: Base(r, es) <= n < newpid ==> freepids[n] != UNUSED_PID
        decreases free - newpid
      {
        newpid := newpid + 1;
      }
      freepids[newpid] := es.pid;
      newpids[es.pid] := newpid;
      pid := newpid;
    }
  }

  lemma {:induction false} SubStreamKinds(descs: seq<Desc>)
    ensures SubStream(descs).None? || SubStream(descs) == Some(I_APID) || SubStream(descs) == Some(I_SPUPID)
  {
    if descs != [] { SubStreamKinds(descs[..|descs| - 1]); }
  }

  // ----- the announced PMT -----

  /** Without ECM output, CA descriptors (tag 9) are dropped. */
  function Kept(descs: seq<Desc>, ecm: bool): seq<Desc> {
    if descs == [] then []
    else Kept(descs[..|descs| - 1], ecm) +
         (if !ecm && descs[|descs| - 1].tag == 0x9 then [] else [descs[|descs| - 1]])
  }

  method CopyDescriptors(descs: seq<Desc>, ecm: bool) returns (r: seq<Desc>)
    ensures r == Kept(descs, ecm)
  {
    r := [];
    var j := 0;
    while j < |descs|
      invariant 0 <= j <= |descs| && r == Kept(descs[..j], ecm)
    {
      assert descs[..j + 1][..j] == descs[..j];
      var d := descs[j];
      j := j + 1;
      if !ecm && d.tag == 0x9 {
        continue;
      }
      r := r + [d];
    }
    assert descs[..j] == descs;
  }

  /** The descriptors kept are in their order, and exactly CA descriptors are missing, if ECM are not sent. */
  lemma {:induction false} KeptPlaces(descs: seq<Desc>, ecm: bool) returns (places: seq<nat>)
    ensures |places| == |Kept(descs, ecm)| && forall i :: 0 <= i < |places| ==> places[i] < |descs| && Kept(descs, ecm)[i] == descs[places[i]]
    ensures forall i, j :: 0 <= i < j < |places| ==> places[i] < places[j]
    ensures forall k: nat :: k < |descs| ==> (k in places <==> ecm || descs[k].tag != 9)
  {
    places := [];
    if descs != [] {
      places := KeptPlaces(descs[..|descs| - 1], ecm);
      if ecm || descs[|descs| - 1].tag != 9 {
        places := places + [|descs| - 1];
      }
    }
  }

  predicate TellingTag(tag: int) {
    SubtitleTag(tag) || AudioTag(tag)
  }

  /** PIDWouldBeSelected */
  predicate WouldBeSelected(es: Es, anyType: bool) {
    anyType || (AudioType(es.streamType) || (VideoType(es.streamType) && es.streamType != 0x42))
    || (es.streamType == 0x06 && exists d :: d in es.descs && TellingTag(d.tag))
  }

  predicate Chosen(es: Es, pids: seq<int>, anyType: bool) {
    (pids == [] && WouldBeSelected(es, anyType)) || es.pid in pids
  }

  /** The streams an output lists, in PMT order. */
  function Streams(es: seq<Es>, pids: seq<int>, anyType: bool): (r: seq<Es>)
    ensures |r| <= |es|
    ensures forall e :: e in r ==> e in es
  {
    if es == [] then []
    else Streams(es[..|es| - 1], pids, anyType) +
         (if Chosen(es[|es| - 1], pids, anyType) then [es[|es| - 1]] else [])
  }

  /** The streams listed are in the order of the PMT: with a PID list those on it, else those of a kind that is taken. */
  lemma {:induction false} StreamsPlaces(es: seq<Es>, pids: seq<int>, anyType: bool) returns (places: seq<nat>)
    ensures |places| == |Streams(es, pids, anyType)| && forall i :: 0 <= i < |places| ==> places[i] < |es| && Streams(es, pids, anyType)[i] == es[places[i]]
    ensures forall i, j :: 0 <= i < j < |places| ==> places[i] < places[j]
    ensures forall k: nat :: k < |es| ==> (k in places <==> if pids != [] then es[k].pid in pids else WouldBeSelected(es[k], anyType))
  {
    places := [];
    if es != [] {
      places := StreamsPlaces(es[..|es| - 1], pids, anyType);
      if Chosen(es[|es| - 1], pids, anyType) {
        places := places + [|es| - 1];
      }
    }
  }

  predicate PidsOk(es: seq<Es>) {
    forall e :: e in es ==> IsPid(e.pid)
  }

  /** What map_es_pid is asked to do for a stream. */
  function WantOf(r: Remap, es: Es): (w: Want)
    requires RemapOk(r) && IsPid(es.pid)
    ensures w.pid == es.pid && 0 <= w.base
  {
    Want(es.pid, if r.global || r.local then Base(r, es) else 0)
  }

  function Wants(r: Remap, streams: seq<Es>): (ws: seq<Want>)
    requires RemapOk(r) && PidsOk(streams)
    ensures |ws| == |streams| && WantsOk(ws)
    ensures forall i :: 0 <= i < |ws| ==> ws[i].pid == streams[i].pid
  {
    seq(|streams|, i requires 0 <= i < |streams| => WantOf(r, streams[i]))
  }

  /** The emitted loop keeps order, types and kept descriptors, and puts stream i on pids[i]. */
  predicate Lists(out: seq<Es>, streams: seq<Es>, pids: seq<int>, ecm: bool) {
    && |out| == |streams| == |pids|
    && forall i :: 0 <= i < |out| ==> out[i] == Es(streams[i].streamType, pids[i], Kept(streams[i].descs, ecm))
  }

  lemma WantsAppend(r: Remap, streams: seq<Es>, e: Es)
    requires RemapOk(r) && PidsOk(streams) && IsPid(e.pid)
    ensures PidsOk(streams + [e])
    ensures Assign(Wants(r, streams + [e])) == Extend(Assign(Wants(r, streams)), WantOf(r, e))
  {
    assert Wants(r, streams + [e]) == Wants(r, streams) + [WantOf(r, e)];
    AssignAppend(Wants(r, streams), WantOf(r, e));
  }

  /** The tables and the list so far are what the streams listed so far ask for. */
  ghost predicate Listed(out: seq<Es>, tables: Tables, streams: seq<Es>, ecm: bool, r: Remap)
    requires RemapOk(r) && PidsOk(streams)
    reads tables, tables.newpids, tables.freepids
  {
    var a := Assign(Wants(r, streams));
    && tables.newpids[..] == a.new_ && tables.freepids[..] == a.free
    && Lists(out, streams, a.out, ecm)
  }

  /** The body of NewPMT's loop, for a stream that the output lists. */
  method AddStream(tables: Tables, out: seq<Es>, e: Es, ecm: bool, r: Remap, ghost streams: seq<Es>) returns (out': seq<Es>)
    requires tables.Valid() && RemapOk(r) && PidsOk(streams) && IsPid(e.pid)
    requires PidsOk(streams + [e]) && AllFit(Wants(r, streams + [e]))
    requires Listed(out, tables, streams, ecm, r)
    modifies tables.newpids, tables.freepids
    ensures tables.Valid() && PidsOk(streams + [e])
    ensures Listed(out', tables, streams + [e], ecm, r)
  {
    ghost var ws := Wants(r, streams);
    ghost var a := Assign(ws);
    assert Wants(r, streams + [e]) == ws + [WantOf(r, e)];
    assert (ws + [WantOf(r, e)])[..|ws|] == ws;
    assert WantOf(r, e).base != 0 ==> tables.freepids[FirstFree(a.free, WantOf(r, e).base)] == UNUSED_PID;
    var pid := tables.MapEsPid(r, e);
    var kept := CopyDescriptors(e.descs, ecm);
    WantsAppend(r, streams, e);
    out' := out + [Es(e.streamType, pid, kept)];
  }

  /** The loop of NewPMT. */
  method ListStreams(tables: Tables, all: seq<Es>, pids: seq<int>, anyType: bool, ecm: bool, r: Remap) returns (es: seq<Es>)
    requires tables.Valid() && RemapOk(r) && PidsOk(all)
    requires AllFit(Wants(r, Streams(all, pids, anyType)))
    requires Listed([], tables, [], ecm, r)
    modifies tables.newpids, tables.freepids
    ensures tables.Valid()
    ensures Listed(es, tables, Streams(all, pids, anyType), ecm, r)
  {
    es := [];
    ghost var streams := [];
    var j := 0;
    while j < |all|
      invariant 0 <= j <= |all| && tables.Valid()
      invariant streams == Streams(all[..j], pids, anyType) && PidsOk(streams)
      invariant Listed(es, tables, streams, ecm, r)
    {
      var e := all[j];
      StreamsStep(all, pids, anyType, j);
      j := j + 1;
      if (pids != [] || !WouldBeSelected(e, anyType)) && e.pid !in pids {
        continue;
      }
      FitSoFar(r, all, pids, anyType, j, streams + [e]);
      es := AddStream(tables, es, e, ecm, r, streams);
      streams := streams + [e];
    }
    assert all[..j] == all;
  }

  lemma FitSoFar(r: Remap, es: seq<Es>, pids: seq<int>, anyType: bool, k: nat, streams: seq<Es>)
    requires RemapOk(r) && PidsOk(es) && AllFit(Wants(r, Streams(es, pids, anyType)))
    requires k <= |es| && streams == Streams(es[..k], pids, anyType)
    ensures PidsOk(streams) && AllFit(Wants(r, streams))
  {
    hide AllFit;
    var ws := Wants(r, Streams(es, pids, anyType));
    StreamsPrefix(es, pids, anyType, k);
    FitPrefix(ws, |streams|);
    assert Wants(r, streams) == ws[..|streams|];
  }

  lemma NothingListed(tables: Tables, ecm: bool, r: Remap)
    requires RemapOk(r) && tables.newpids[..] == tables.freepids[..] == Unused()
    ensures Listed([], tables, [], ecm, r)
  {
  }

  /** NewPMT, for an output whose program has a current PMT.  Every stream must find a free PID. */
  method NewPmt(tables: Tables, pmt: Pmt, sid: int, newSid: int, pids: seq<int>, anyType: bool, ecm: bool, r: Remap) returns (out: Pmt)
    requires tables.Valid() && RemapOk(r) && IsPid(pmt.pcrPid) && PidsOk(pmt.es)
    requires AllFit(Wants(r, Streams(pmt.es, pids, anyType)))
    modifies tables.newpids, tables.freepids
    ensures tables.Valid()
    ensures out.descs == Kept(pmt.descs, ecm) && out.program == if newSid != 0 then newSid else sid
    ensures Listed(out.es, tables, Streams(pmt.es, pids, anyType), ecm, r)
    ensures out.pcrPid == Renumber(tables.newpids[..], pmt.pcrPid)
    ensures DistinctPids(pmt.es) ==> |out.es| == |Streams(pmt.es, pids, anyType)| && forall i :: 0 <= i < |out.es| ==>
      out.es[i].pid == Renumber(tables.newpids[..], Streams(pmt.es, pids, anyType)[i].pid)
  {
    hide Kept, Streams, Wants, AllFit, DistinctPids, Listed;
    tables.Init();
    var descs := CopyDescriptors(pmt.descs, ecm);
    assert tables.freepids[..] == Unused() == tables.newpids[..];
    NothingListed(tables, ecm, r);
    var es := ListStreams(tables, pmt.es, pids, anyType, ecm, r);
    var pcr := pmt.pcrPid;
    if tables.newpids[pcr] != UNUSED_PID {
      pcr := tables.newpids[pcr];
    }
    out := Pmt(if newSid != 0 then newSid else sid, pcr, descs, es);
    if DistinctPids(pmt.es) {
      ListedSent(es, tables, pmt.es, pids, anyType, ecm, r);
    }
  }

  lemma ListedSent(out: seq<Es>, tables: Tables, es: seq<Es>, pids: seq<int>, anyType: bool, ecm: bool, r: Remap)
    requires tables.Valid() && RemapOk(r) && PidsOk(es) && DistinctPids(es) && AllFit(Wants(r, Streams(es, pids, anyType)))
    requires Listed(out, tables, Streams(es, pids, anyType), ecm, r)
    ensures |out| == |Streams(es, pids, anyType)|
    ensures forall i :: 0 <= i < |out| ==> out[i].pid == Renumber(tables.newpids[..], Streams(es, pids, anyType)[i].pid)
  {
    hide Wants, AllFit, DistinctPids, Streams;
    ListedIsSent(es, pids, anyType, r);
  }

  predicate DistinctPids(es: seq<Es>) {
    forall i, j :: 0 <= i < j < |es| ==> es[i].pid != es[j].pid
  }

  lemma {:induction false} StreamsDistinct(es: seq<Es>, pids: seq<int>, anyType: bool)
    requires DistinctPids(es)
    ensures DistinctPids(Streams(es, pids, anyType))
  {
    if es != [] {
      var init, e := es[..|es| - 1], es[|es| - 1];
      StreamsDistinct(init, pids, anyType);
      forall s | s in Streams(init, pids, anyType) ensures s.pid != e.pid {
        assert s in init;
      }
    }
  }

  /** The PID listed for a stream is the one its packets are sent on. */
  lemma ListedIsSent(es: seq<Es>, pids: seq<int>, anyType: bool, r: Remap)
    requires RemapOk(r) && PidsOk(es) && DistinctPids(es)
    requires AllFit(Wants(r, Streams(es, pids, anyType)))
    ensures var streams := Streams(es, pids, anyType); var a := Assign(Wants(r, streams));
      forall i :: 0 <= i < |streams| ==> a.out[i] == Renumber(a.new_, streams[i].pid)
  {
    var streams := Streams(es, pids, anyType);
    var ws := Wants(r, streams);
    StreamsDistinct(es, pids, anyType);
    forall i | 0 <= i < |streams| ensures Assign(ws).out[i] == Renumber(Assign(ws).new_, streams[i].pid) {
      AnnouncedIsSent(ws, i);
    }
  }

  lemma StreamsStep(es: seq<Es>, pids: seq<int>, anyType: bool, j: nat)
    requires j < |es|
    ensures Streams(es[..j + 1], pids, anyType) ==
      Streams(es[..j], pids, anyType) + (if Chosen(es[j], pids, anyType) then [es[j]] else [])
  {
    assert es[..j + 1][..j] == es[..j];
  }

  lemma {:induction false} StreamsPrefix(es: seq<Es>, pids: seq<int>, anyType: bool, k: nat)
    requires k <= |es|
    ensures Streams(es[..k], pids, anyType) <= Streams(es, pids, anyType)
    decreases |es|
  {
    if k < |es| {
      StreamsPrefix(es[..|es| - 1], pids, anyType, k);
      assert es[..|es| - 1][..k] == es[..k];
    } else {
      assert es[..k] == es;
    }
  }
}
