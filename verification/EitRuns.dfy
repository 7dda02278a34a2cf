/** The EIT of an output over whole runs: between TS packets, other sections, flushes and the timer, its packets make up one
    section stream, and a receiver gets exactly the sections. */
module EitRuns {
  import opened Common
  import opened PacketQueue
  import opened Outputs
  import opened Intakes
  import opened OutputRuns
  import Programs
  import Receiver
  import Sections

  /** The sections of the EIT that came for output i since it was closed last. */
  function EitSections(events: seq<Event>, i: nat): seq<seq<Byte>> {
    if events == [] then []
    else
      var before := EitSections(events[..|events| - 1], i);
      match events[|events| - 1]
      case EitCame(k, section, _) => if i == k + 1 then before + [section] else before
      case Closed(k) => if i == k + 1 then [] else before
      case _ => before
  }

  ghost predicate WellFormed(e: Event) {
    e.EitCame? ==> Receiver.IsSection(e.section)
  }

  lemma FeedsNext(feeds: seq<Sections.Feed>, f: Sections.Feed)
    ensures Receiver.SectionsOf(feeds + [f]) == Receiver.SectionsOf(feeds) + if f.Section? then [f.bytes] else []
    ensures Receiver.SectionFeeds(feeds) && (f.Section? ==> Receiver.IsSection(f.bytes)) ==> Receiver.SectionFeeds(feeds + [f])
  {
    assert (feeds + [f])[..|feeds|] == feeds;
  }

  /** One event more. */
  lemma LoggedNext(e: Event, os: seq<Output>, i: nat, v: Intake, v': Intake, log: EitLog, sections: seq<seq<Byte>>) returns (log': EitLog)
    requires Takes(e, os, i, v, v') && Logged(v, log) && Receiver.SectionsOf(log.feeds) == sections && WellFormed(e)
    requires e.Opened? ==> e.output + 1 != i
    ensures Logged(v', log')
    ensures Receiver.SectionsOf(log'.feeds) ==
      if e.EitCame? && i == e.output + 1 then sections + [e.section] else if e.Closed? && i == e.output + 1 then [] else sections
    ensures Receiver.SectionFeeds(log.feeds) ==> Receiver.SectionFeeds(log'.feeds)
  {
    hide Logged, Receiver.SectionsOf, Receiver.SectionFeeds, EitTaken, CarryFits, Receiver.IsSection;
    log' := log;
    if e.EitCame? && i == e.output + 1 {
      log' := LoggedSection(v, log, e.section, e.dts);
      FeedsNext(log.feeds, Sections.Section(e.section));
    } else if e.Closed? && i == e.output + 1 {
      log' := EitLog([], [], v'.eitCc);
      LoggedNothing(v');
      NoFeeds();
    } else if v'.carry == v.carry {
      LoggedMore(v, v', log);
    } else {
      var p := FlushPlace(e, os, i, v, v');
      LoggedFlush(v, v', log, p);
      log' := EitLog(log.feeds + [Sections.FlushEit], log.at + [p], log.cc);
      FeedsNext(log.feeds, Sections.FlushEit);
    }
  }

  /** Where the flushed EIT packet is among what was put. */
  lemma FlushPlace(e: Event, os: seq<Output>, i: nat, v: Intake, v': Intake) returns (p: nat)
    requires Takes(e, os, i, v, v') && v'.carry != v.carry && !e.EitCame? && !e.Closed? && (e.Opened? ==> e.output + 1 != i)
    ensures v.puts <= v'.puts && v'.eitCc == v.eitCc && v.carry.Some? && v'.carry == None
    ensures |v.puts| <= p < |v'.puts| && v'.puts[p].ts == v.carry.value
  {
    var item := Item(e.dts, e.ts);
    var timed := if e.TdtCame? then Timed(v, item, i > 0 && e.dvb[i - 1]) else v;
    var registered := Some(os[i]) in e.regs;
    p := |timed.puts| + if registered && (v.pcrPid != e.ts.pid || e.ts.pcr) then 1 else 0;
  }

  lemma NoFeeds()
    ensures Receiver.SectionsOf([]) == [] && Receiver.SectionFeeds([])
  {
  }

  /** On every run in which the output is not set up anew, the EIT packets among those put are one section stream,
      cut from the sections that came, with what is carried over and the counter as the stream has them. */
  lemma {:induction false} EitIsOneStream(events: seq<Event>, os: seq<Output>, fed: seq<seq<Intake>>, i: nat) returns (log: EitLog)
    requires Fed(events, os, fed) && i < |fed[0]| && fed[0][i].carry == None
    requires forall e :: e in events ==> WellFormed(e) && (e.Opened? ==> e.output + 1 != i)
    ensures Logged(fed[|events|][i], log)
    ensures Receiver.SectionsOf(log.feeds) == EitSections(events, i) && Receiver.SectionFeeds(log.feeds)
    decreases |events|
  {
    hide Logged, WellFormed, Takes, Receiver.SectionFeeds;
    if events == [] {
      log := EitLog([], [], fed[0][i].eitCc);
      LoggedNothing(fed[0][i]);
      NoFeeds();
    } else {
      var n := |events| - 1;
      FedInit(events, os, fed);
      var before := EitIsOneStream(events[..n], os, fed[..n + 1], i);
      assert events[n] in events && Takes(events[n], os, i, fed[n][i], fed[n + 1][i]);
      log := LoggedNext(events[n], os, i, fed[n][i], fed[n + 1][i], before, EitSections(events[..n], i));
    }
  }

  lemma FedInit(events: seq<Event>, os: seq<Output>, fed: seq<seq<Intake>>)
    requires Fed(events, os, fed) && events != []
    ensures Fed(events[..|events| - 1], os, fed[..|events|])
    ensures |fed| == |events| + 1 && |fed[|events|]| == |fed[|events| - 1]| == |fed[0]| && TakesAll(events[|events| - 1], os, fed[|events| - 1], fed[|events|])
  {
    hide Takes;
  }

  /** So a receiver of those packets, and of the one still carried over, gets exactly the sections that came, in order. */
  lemma EitHeard(events: seq<Event>, os: seq<Output>, fed: seq<seq<Intake>>, i: nat) returns (log: EitLog)
    requires Fed(events, os, fed) && i < |fed[0]| && fed[0][i].carry == None
    requires forall e :: e in events ==> WellFormed(e) && (e.Opened? ==> e.output + 1 != i)
    ensures Logged(fed[|events|][i], log)
    ensures var m := Sections.FlushCarry(MillOf(log));
      Receiver.Fit(m.out) && Receiver.Receive(m.out) == Receiver.Rx([], EitSections(events, i))
  {
    log := EitIsOneStream(events, os, fed, i);
    Receiver.RoundTrip(log.feeds, Programs.EIT_PID, true, log.cc);
  }
}
