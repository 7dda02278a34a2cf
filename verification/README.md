# DVB stream gateway: a model of its core, with proofs

The gateway reads an MPEG transport stream, follows its program tables, and sends selected programs to
network outputs. This project models the parts of it that keep shared, counted or linked state, in the form
the program has (classes whose methods update fields, arrays and linked lists in place), and proves that
they do what they are for.

- **Outputs** (`Outputs`, `PacketQueue`, `Intakes`, `OutputRuns`, `EitRuns`): reference-counted TS blocks from a bounded pool, the packets they
  are grouped into, the datagrams with their PIDs rewritten in place, and the scheduler that drains every
  queue from one timer. The heap state is tied to a replay of everything that was ever put and flushed
  (`PacketQueue.Run`), and first-in-first-out order, timestamps and retention are proved of the replay.
- **PID remapping** (`PidMap`, `PidAssign`): how a stream gets its new PID, and the PMT that announces it.
- **Section streams** (`Sections`, `Receiver`): cutting PSI sections into TS packets with a packet carried
  over, and a receiver after section 2.4.4 of ISO/IEC 13818-1 that gets back exactly the sections sent.
- **Program tables** (`Programs`, `ProgramSlots`, `Demultiplexer`, `Ledgers`): PID counts and filters, registrations with holes, slots
  for programs; PATs, PMTs and configurations come in in any order, and incremental updates are proved to agree with
  computing everything anew.
- **Common interface** (`CiLength`, `CiTpdu`, `CiTransport`, `CiRuns`, `Mmi`): the length field, fragmentation and
  reassembly, the linked send queue with one TPDU outstanding per slot, sessions, MMI objects in messages.
- **Small parts**: `Bits` (bit fields of ATSC tables), `Timestamps` (timestamps of a read), `PsiTables`
  (tables as flat buffers).

`dafny verify dfyconfig.toml` checks everything.

How it is put together. In `Outputs.Mux`, `Inv()` says that every block's reference count is the number of
places that hold it (queued packets, EIT packets carried over, callers), that pooled blocks have no owner,
and that the pool is a list without repetitions of at most 500 blocks; `LeakFree()` that a block without owner is in the
pool; `Faithful()` that every queued block still holds what was put; `Armed()` that no wake-up is lost.
Every operation keeps all of them, and `OutputRuns.Run` states them, written out, for every sequence of
events; `AllSpelled()` says that the datagrams sent, one by one, are what was put, and `Relayed` says the same from the
receiver's side: `Shown` reads the TS packets off a datagram, and what is read off all of them is what was put. `Run` also gives, event by event,
what each output had sent under which PID table (`Traced`) and what it was given (`Fed`), and `EitRuns.EitHeard`
concludes from that what a receiver of its EIT gets. In `Demultiplexer`, `SlotsAre` (slots are the programs), `Served` (watched outputs are registered
on what they want) and `Exact` (PSI counts exact, filters open only while wanted, and from a willing device whenever wanted) play that role, and `Run`
states each for every sequence of events under its own conditions: what an output gets depends only on its own
configurations and its own programs' PMTs. In `CiTransport`, `Valid()` covers the linked lists and `QuietBut(-1)`
that nothing waits where no answer is expected; `CiRuns.Run` states them for every sequence of TPDUs, polls, sends
and resets, with what every step does to the session table and to what is queued (`Passes`), and `CiRuns.RunDelivers`
follows the bytes of SPDUs from one end to the other.

Choices. An output is known to the demultiplexer by its index. Blocks of a linked list in the program are a
sequence here where only order matters (the packets of an output, the pool, the blocks of a read); the send
queue of a slot is a real linked list with its tail link. Clock readings, the success of device writes and
filters, the state of a CI module and what applications send are arbitrary. Timers are modelled by the time they are set
for. Where a TS packet is filled up, that is implied by its data being short.

Where the code and its documentation differ, the code is followed:

- The README of the gateway promises that the first and last TS packet of a datagram are at most the
  retention time apart. A PCR moves the packet's timestamp on, and retention is measured from there, so this
  holds only if (n - 1)(r - 1) <= r for n TS packets per datagram and retention r
  (`PacketQueue.RetentionPromise`); with 7 and 40000 microseconds it does not.
- A PMT whose PCR is on its own PMT PID registers outputs there that neither GetPIDS nor DeleteProgram
  knows of. `Programs.ReplacedOnWanted` gives the condition, `Demultiplexer.PcrOnPmtPid` a run.
- A PMT section for program 0 on PID 0 is taken to belong to a free slot, and the next program that is given the slot
  inherits it: its outputs are then not registered on what they want, exactly if that PMT gives the program a PID
  (`Programs.AddedOnWanted`), and PIDs it shares with the program's own PMT are not started when that comes
  (`Programs.InheritedShadows`). `Demultiplexer.PmtForProgramZero` and `PmtForProgramZeroLasts` are a run.
- Reconfiguring an output moves a PMT reference from one program to the other, although references are
  counted per program and not per output; a PMT may then no longer be read (`Programs.ReloadPsi`,
  `Demultiplexer.PmtLost`).
- A menu without choices does not survive the way through a message (`Mmi.Unserialize`), and a string is let through
  whose zero is the byte behind the message (`Mmi.EndsWithin`, `Mmi.EndsBehind`).
- A stream without a base PID keeps its PID, which another stream may be given too (`PidAssign.AnnouncedDistinct`,
  `PidAssign.ZeroBaseCollides`), and the search for a free PID can leave the table (`PidAssign.FitsIffSpacious`,
  `PidAssign.LeavesTheTable`).
- An SPDU whose last TPDU is empty is not delivered; its bytes go in front of the next one (`CiTpdu.LastDecides`).

## Model

| member | source | states |
|---|---|---|
| PacketQueue.FirstInFirstOut | cLdvboutput.cpp:752-875 | whatever the interleaving of puts and flushes, what has left followed by what waits is what was put, in order |
| PacketQueue.PacketsWellStamped | cLdvboutput.cpp:848-867 | every packet ever queued holds 1 to BlockCount TS packets, has the timestamp of its anchor, and what is behind the anchor is less than the retention away from it |
| PacketQueue.AnchorIsLastPcr | cLdvboutput.cpp:850-857 | the anchor is the last TS packet with a PCR, or else the first TS packet |
| PacketQueue.QueueSorted | cLdvboutput.cpp:843-867 | with non-decreasing timestamps put, packets leave and wait in timestamp order |
| PacketQueue.RetentionPromise | README:248-251 | the promised bound on the spread of a datagram holds on all runs exactly if (room-1)*(retention-1) <= retention |
| Outputs.CheckMtu | cLdvboutput.cpp:501-509 | an MTU that holds an RTP header and a TS packet is kept, any other is replaced by the default of the address family |
| Outputs.DatagramFits | cLdvboutput.cpp:553-559 | a datagram made of some TS packets reads back as exactly these, takes as many TS packets and null packets together as fit the MTU and no fewer, and takes at most BlockCount + 2 scatter elements |
| Outputs.ImageReads | cLdvboutput.cpp:752-821 | what a receiver takes from a datagram are the TS packets it was made of, in order; headers come first and read back as sequence number, time and length, and only padding follows the last TS packet |
| Outputs.Mux.constructor | cLdvboutput.cpp:908-914 | all invariants hold at the start |
| Outputs.Mux.BlockNew | cLdvboutput.cpp:84-99 | the new block has one owner, comes from the pool if that is not empty, and no pooled block is lost |
| Outputs.Mux.BlockDelete | cLdvboutput.cpp:101-110 | an unowned block is pooled, or freed if the pool holds 500 |
| Outputs.Mux.Rewrite | cLdvboutput.cpp:781-803 | every block shows the PID it is renumbered to, once per occurrence in the packet, and tmp_pid tells how to undo the last renumbering |
| Outputs.Mux.Drop | cLdvboutput.cpp:826-835 | one reference less; the last one pools or frees the block, otherwise the saved PID is restored |
| Outputs.Mux.Release | cLdvboutput.cpp:825-836 | one reference per occurrence is dropped, nothing leaves the pool, and every block still wanted is restored |
| Outputs.Output.Append | cLdvboutput.cpp:850-867 | the queue afterwards is Enqueue of the queue before, and holds one reference more to the block |
| Outputs.Mux.Put | cLdvboutput.cpp:843-875 | keeps Inv, adds one reference and one entry to the history; the timer is set if it was set too late; queued contents stay what was put |
| Outputs.Mux.Send | cLdvboutput.cpp:805-821 | a receiver takes from what the kernel gathers exactly the TS packets as they are now, in order, behind the headers and before the padding, with the right UDP length |
| Outputs.Mux.Transmit | cLdvboutput.cpp:752-821 | the RTP sequence number used is the old one, and steps by one mod 2^16 |
| Outputs.Mux.Flush | cLdvboutput.cpp:752-841 | keeps Inv; the datagram shows each block renumbered as often as it occurs in the packet; a block still wanted is left renumbered once less often |
| Outputs.Mux.FlushTold | cLdvboutput.cpp:752-841 | the history of datagrams grows by exactly this one, noted with the clock, the flag and the PID table in force; from a faithful state it is the expected datagram, and if the packet was due the history stays one of due packets |
| Outputs.Mux.OutputFlush | cLdvboutput.cpp:752-841 | from a faithful state a receiver takes from the datagram exactly the TS packets put into the first packet, each on its announced PID, and all other queues still hold what was put |
| Outputs.Mux.Drain | cLdvboutput.cpp:895-896 | afterwards the head of the queue is not due, and nothing was sent before it was due; a suffix of the queue remains; the clock is unread if nothing was sent |
| Outputs.Mux.Sweep | cLdvboutput.cpp:883-899 | after a round next_send is the exact minimum of the due times, and lies ahead unless something was sent |
| Outputs.Mux.Rounds | cLdvboutput.cpp:881-901 | the loop ends for any clock readings, with next_send the exact minimum of the due times and after the wallclock |
| Outputs.Mux.OutputsSend | cLdvboutput.cpp:877-906 | nothing queued in timestamp order is overdue, nothing is sent early, the timer is armed for the first packet due or off if there is none, nothing put is lost, and every datagram it sends goes out under its output's present PID table |
| Outputs.Mux.NewBlock | cLdvbdemux.cpp:986-987 | a block taken by the section code has the caller as its only owner and disturbs no queue and no EIT packet |
| Outputs.Mux.Write | cLdvbdemux.cpp:992-1002 | what is written is the round that Sections.Round describes, and whether the packet is kept |
| Outputs.Mux.OutputPsiSection | cLdvbdemux.cpp:971-1019 | the TS packets put, the packet carried over and the continuity counter are those of Sections.SendFrom, all invariants kept |
| Outputs.Mux.FlushEit | cLdvbdemux.cpp:1123-1133 | the packet carried over is put, once, and nothing is carried over any more |
| Outputs.Mux.Serve | cLdvbdemux.cpp:544-548 | an output registered on the PID is given the TS packet once (on its PCR PID only with a PCR), then its EIT packet if that is more than 500 ms older |
| Outputs.Mux.SendTdt | cLdvbdemux.cpp:1135-1146 | exactly the valid DVB outputs with an SDT that are not passthrough are given the TS packet |
| Outputs.Mux.Handle | cLdvbdemux.cpp:518-567 | every output is given the TS packet once if it is registered (on its PCR PID only with a PCR) and once if it is valid and passthrough or the duplication output, with its EIT packet in between if that is due, and nothing else; the reference that came with it is dropped |
| Outputs.Mux.ReleaseHeld | cLdvbdemux.cpp:564-566 | the caller's reference goes, and with the last one the block is pooled or freed, all invariants kept |
| Outputs.Mux.Close | cLdvboutput.cpp:725-750 | every reference the output held is dropped, other outputs find their blocks as they were, nothing leaks |
| OutputRuns.TakeTs | cLdvbdemux.cpp:518-567 | a TS packet read into a fresh or pooled block and handled is given to each output as often as Handle says (`GotItem`, written out), and leaves every invariant and no block in a caller's hands |
| OutputRuns.OneGot | cLdvbdemux.cpp:518-567 | what an output newly put is the TS packet if it is registered and its PCR PID is another or the packet has a PCR, then the EIT packet if it was flushed, then the TS packet if it is valid and passthrough or the duplication output |
| OutputRuns.TakeTdt | cLdvbdemux.cpp:501-567 | so does one with the time of day, which SendTDT puts into outputs first |
| OutputRuns.Remap | cLdvbdemux.cpp:1249-1326 | so does writing the PID table of an output anew while packets wait; the table is that of the PMT, and no other output's changes |
| OutputRuns.OpenOne | cLdvboutput.cpp:610-722 | an output that is not in use is set up anew: nothing sent, nothing given, an empty PID table; no other output changes |
| OutputRuns.TakeEit | cLdvbdemux.cpp:1090-1121 | a section of the EIT goes on from the packet carried over, with the output's own counter |
| OutputRuns.SoundAccounted | cLdvboutput.cpp:84-129 | the invariants spelled out: a block is pooled exactly if it is in no queued packet and no EIT buffer, otherwise its reference count is the number of times it is in one; pooled and queued blocks are disjoint; the pool holds at most 500, none twice; a valid output with packets has the timer set no later than its first packet is due |
| OutputRuns.AllHome | cLdvboutput.cpp:725-750 | once the outputs hold nothing, every block there is, is in the pool |
| OutputRuns.SoundInFull | cLdvboutput.cpp:752-875 | what a receiver takes from all datagrams of an output, one after the other, is what was put into it, in order, each TS packet on its PID under the table of that time, and what waits is the rest; headers and sequence numbers are right in every datagram, none left before it was due, and an output that does not rewrite PIDs sent every TS packet as it was |
| OutputRuns.SpelledRelayed | cLdvboutput.cpp:752-875 | so for one output, from the replay of its puts and flushes to what a receiver reads |
| OutputRuns.Run | cLdvboutput.cpp:725-906 | over every run of TS packets, times of day, sections, moved PCRs and PIDs, timer callbacks, opened and closed outputs, in any order: block accounts are exact, no wake-up is lost, a receiver of every output takes from its datagrams what was put into it, datagrams leave only at the timer, when due, and under the table of that time, and what is put is what the event brings, to exactly the outputs it is for |
| OutputRuns.SentUnderLast | cLdvboutput.cpp:781-803 | every datagram of an output that is not set up anew went out under the table of the last PMT that was made for it before |
| EitRuns.EitIsOneStream | cLdvbdemux.cpp:544-548 | on every run the EIT packets among those put into an output are one section stream, counter and carried packet included, whatever comes in between |
| EitRuns.EitHeard | cLdvbdemux.cpp:1090-1133 | so a receiver of them, and of the one still carried over, gets exactly the sections that came, in order |
| Intakes.LoggedSection | cLdvbdemux.cpp:971-1019 | one more section extends the stream by its packets |
| Sections.RoundFills | cLdvbdemux.cpp:976-1017 | one round's packet: its payload, pointer, PID, counter, and whether it leaves or is carried over |
| Sections.GrindContents | cLdvbdemux.cpp:971-1019 | over any sequence of sections and flushes the payloads are the section bytes in order, none lost or repeated, the carried packet included |
| Sections.GrindContinuous | cLdvbdemux.cpp:994-999 | continuity counters of successive packets step by one mod 16 (section 2.4.3 of ISO/IEC 13818-1) |
| Sections.GrindPointed | cLdvbdemux.cpp:976-1018 | a packet is marked exactly if a section starts in it, and its pointer leads to the first one (section 2.4.4 of ISO/IEC 13818-1) |
| Receiver.RoundTrip | cLdvbdemux.cpp:971-1019 | a section receiver gets exactly the sections sent, once the carried packet is flushed; without carry-over nothing is ever missing |
| PidMap.FindSubStream | cLdvbdemux.cpp:166-182 | the last telling descriptor decides what private data are |
| PidMap.BaseIs | cLdvbdemux.cpp:131-199 | audio types go to the audio base, video types to the video base, private data to the base of the last descriptor that tells what they are, of the global bases if those are in force; any other stream stays |
| PidMap.SelectedIsMapped | cLdvbdemux.cpp:1537-1575 | an output without a PID list takes exactly the listed types and private data with a telling descriptor, and these are the streams that are remapped, but for AVS video |
| PidMap.Tables.Init | cLdvboutput.cpp:601-607 | both tables are empty |
| PidMap.Tables.MapEsPid | cLdvbdemux.cpp:131-218 | the stream gets the first free PID from its base on, and both tables record it; the tables stay inverse to each other |
| PidMap.CopyDescriptors | cLdvbdemux.cpp:1218-1247 | descriptors are kept in order, CA descriptors only with ECM output |
| PidMap.KeptPlaces | cLdvbdemux.cpp:1218-1247 | the descriptors kept are in their order, and without ECM output exactly those with tag 9 are missing |
| PidMap.StreamsPlaces | cLdvbdemux.cpp:1289-1296 | the streams listed are in the order of the PMT: with a PID list exactly those on it, else exactly those of a kind that is taken |
| PidMap.NewPmt | cLdvbdemux.cpp:1249-1326 | the PMT lists the selected streams in order on the PIDs of the assignment, and for distinct stream PIDs each listed PID, the PCR PID included, is the one output_Flush writes |
| PidMap.ListedIsSent | cLdvboutput.cpp:788-797 | if all streams find a PID, the PID listed for a stream is the PID its packets are sent on |
| PidAssign.FitsIffSpacious | cLdvbdemux.cpp:208-211 | the search stays in the table exactly if, for every b, at most 8192 - b streams look for a PID from b on |
| PidAssign.LeavesTheTable | cLdvbdemux.cpp:208-211 | it does not for a base of 8192, nor for two streams from the last PID on |
| PidAssign.RoomMakesFit | cLdvbdemux.cpp:208-211 | enough PIDs above every base are enough for all streams to find one |
| PidAssign.TakenIffCrowded | cLdvbdemux.cpp:205-213 | a PID p is given to a stream exactly if for some b more than p - b streams have their bases between b and p |
| PidAssign.AnnouncedIsSent | cLdvboutput.cpp:792-797 | renumbering a stream's PID gives the PID announced for it |
| PidAssign.MapsBack | cLdvbdemux.cpp:212-213 | freepids undoes newpids |
| PidAssign.AnnouncedDistinct | cLdvbdemux.cpp:1289-1307 | announced PIDs are distinct exactly if the streams without a base are on distinct PIDs, none of them crowded by the bases of the others |
| PidAssign.MappedDistinct | cLdvbdemux.cpp:1289-1307 | with non-zero bases announced PIDs are always distinct, even for repeated stream PIDs |
| PidAssign.ZeroBaseCollides | cLdvbdemux.cpp:205-213 | with a base of 0 two streams can be announced on one PID |
| Programs.EnrolledOk | cLdvbdemux.cpp:795-816 | registering fills a hole or appends, adds exactly that output, counts one more unless it was there, and keeps outputs unrepeated |
| Programs.DismissedOk | cLdvbdemux.cpp:819-833 | unregistering leaves a hole, removes exactly that output, and counts one less if it was there |
| Programs.StartedKeeps | cLdvbdemux.cpp:770-776 | StartPID keeps the reference count right and a filter open only while the PID is wanted, and from a willing device whenever it is |
| Programs.StoppedKeeps | cLdvbdemux.cpp:784-793 | StopPID keeps the reference count right and a filter open only while the PID is wanted, and from a willing device whenever it is |
| Programs.MarkedIsWanted | cLdvbdemux.cpp:962-968 | the PIDs that HandlePMT marks are the PIDs that GetPIDS wants exactly if the PCR is not on the PMT PID, or selected anyway |
| Programs.WantedIs | cLdvbdemux.cpp:892-969 | an output whose program has a PMT wants the PIDs of its list, or else those of the streams of a kind that is taken, and besides the PCR unless there is none or it is on the PMT PID; it is noted as wanted for its PCR only if it is not wanted anyway |
| Programs.ImproperBreaks | cLdvbdemux.cpp:1960-1961 | a PMT with its PCR on its own PMT PID leaves every output of the program registered where it does not want to be |
| Programs.ReplacedOnWanted | cLdvbdemux.cpp:2029-2060 | an output that is on what it wants stays so under the marker diff exactly if the PCR of the new PMT is where GetPIDS looks for it |
| Programs.ReplacedServes | cLdvbdemux.cpp:2029-2060 | with the PCRs of the programs they follow in place, all watched outputs do |
| Programs.ReplacedSlots | cLdvbdemux.cpp:1994-2060 | replacing a PMT keeps the live slots matched to the programs, also one for program 0 |
| Programs.DeletedKeeps | cLdvbdemux.cpp:1656-1718 | of a deleted program no slot, PSI reference or registration remains, and all else is kept |
| Programs.AddedKeeps | cLdvbdemux.cpp:1780-1795 | an added program has one slot, without PMT, and one PSI reference, and all else is kept |
| Programs.AddedOnWanted | cLdvbdemux.cpp:1780-1795 | a program inherits the PMT left in its slot; an output that waits for it is then on what it wants exactly if there is none or it gives no PID |
| Programs.InheritedShadows | cLdvbdemux.cpp:2042-2058 | when the program's own PMT comes, exactly its PIDs that the inherited one has not are started |
| Programs.FindAgrees | cLdvbdemux.cpp:1769-1772 | looking a program up in a table with distinct numbers finds what the table says |
| Programs.ChangedWanted | cLdvbdemux.cpp:653-671 | an output that was registered on what it wanted is registered on what it now wants, and others keep theirs |
| Programs.ChangedServes | cLdvbdemux.cpp:577-701 | over any number of reloads outputs stay registered on what they want, also one that was on what an old configuration of any kind wanted |
| Programs.ReloadPsi | cLdvbdemux.cpp:640-683 | PSI counts survive a reload exactly if the program stays, or both PMTs are on one PID, or neither program is known |
| Demultiplexer.Demux.constructor | cLdvbdemux.cpp:270-311 | the tables are tidy and exact for no programs |
| Demultiplexer.Demux.CreateOutput | cLdvboutput.cpp:700-722 | an output that is not in use is taken or one is appended, and registrations stay right |
| Demultiplexer.Demux.SetPid | cLdvbdemux.cpp:770-776 | one reference more; exactly one filter is asked for if not in budget mode, the count is not 0 and none is open, and the answer is the filter; else none is asked for |
| Demultiplexer.Demux.UnsetPid | cLdvbdemux.cpp:784-793 | one reference less; the last one closes the filter |
| Demultiplexer.Demux.StartPid | cLdvbdemux.cpp:795-817 | the output is registered, unless it was, and only then a reference is taken |
| Demultiplexer.Demux.StopPid | cLdvbdemux.cpp:819-834 | the output is unregistered, if it was, and only then a reference is dropped |
| Demultiplexer.Demux.SelectPid | cLdvbdemux.cpp:836-851 | exactly the outputs that take the PID are added, and the PCR PID is noted where it was not asked for |
| Demultiplexer.Demux.UnselectPid | cLdvbdemux.cpp:853-859 | exactly the program's outputs without a list are removed |
| Demultiplexer.Demux.SelectPmt | cLdvbdemux.cpp:861-867 | one PSI reference and one reference more, registrations unchanged |
| Demultiplexer.Demux.UnselectPmt | cLdvbdemux.cpp:876-883 | one PSI reference and one reference less, registrations unchanged |
| Demultiplexer.Demux.GetPids | cLdvbdemux.cpp:892-969 | computes the wanted PIDs and the PCR PID |
| Demultiplexer.Demux.MarkPids | cLdvbdemux.cpp:1945-1984 | exactly the selected PIDs and the PCR PID are marked |
| Demultiplexer.Demux.SwitchAll | cLdvbdemux.cpp:2042-2058 | every PID's registrations change as its two marks say, all counts kept |
| Demultiplexer.Demux.HandlePmt | cLdvbdemux.cpp:1986-2077 | acts on a valid new PMT of a known program on its PID and on nothing else; an output that was on what it wanted still is exactly if the PCR is in its place |
| Demultiplexer.Demux.DeleteProgram | cLdvbdemux.cpp:1656-1718 | what the current PMT brought in is unselected, and the slot is free again |
| Demultiplexer.Demux.AddProgram | cLdvbdemux.cpp:1780-1795 | a free slot is reused or one is appended |
| Demultiplexer.Demux.HandlePat | cLdvbdemux.cpp:1720-1831 | the exact slots afterwards; for PATs with distinct program numbers the tables are those of the new PAT, whatever came, went or moved; if its transport stream id is another one no live slot has a PMT and no watched output is registered through one, if it is the same a program that stays on its PID keeps its PMT; no registration is added |
| ProgramSlots.NewStreamForgets | cLdvbdemux.cpp:1746-1795 | after a PAT with another transport stream id no live slot has a PMT |
| ProgramSlots.SameStreamKeeps | cLdvbdemux.cpp:1746-1795 | after one with the same id a program that stays on its PID has its PMT PID and PMT as before |
| ProgramSlots.StreamEffects | cLdvbdemux.cpp:1746-1795 | both, and with another id no watched output with a program is registered anywhere |
| Demultiplexer.Demux.Change | cLdvbdemux.cpp:577-701 | the exact new state: registrations go from the PIDs wanted before to those wanted now, no other output's change, and no PID still wanted is stopped in between |
| Demultiplexer.Run | cLdvbdemux.cpp:1720-2077 | over every sequence of PATs, PMTs and configurations counts are right, nobody is registered twice, slots and PAT are a function of the events, and from a device that grants every filter each PID that is referenced has one; if the programs of every PAT are distinct, the live slots are the programs, and without reloads PSI counts are exact and a filter is open exactly while the reference count is above 0; if moreover no PMT for program 0 comes on PID 0, every output that is itself plain is registered on exactly the PIDs it wants, whatever the others are |
| Ledgers.SlotsHoldLast | cLdvbdemux.cpp:1720-2077 | on every such run the slots hold, for each program of the current PAT, its PMT PID and the last valid PMT that came for it there since it was added in this transport stream, and nothing else |
| Demultiplexer.PcrOnPmtPid | cLdvbdemux.cpp:1945-1984 | an output on program 1, a PAT, a PMT on PID 100 with its PCR there: the output is registered on PID 100 and does not want it |
| Demultiplexer.PmtForProgramZero | cLdvbdemux.cpp:1780-1795 | a program goes, a PMT for program 0 comes on PID 0, the program comes back: it has that PMT, and its output is not registered on the stream in it |
| Demultiplexer.PmtForProgramZeroLasts | cLdvbdemux.cpp:2042-2058 | the program's own PMT comes, with the same stream: the output wants it and is still not registered |
| Demultiplexer.PmtLost | cLdvbdemux.cpp:640-683 | an output on program 1, a PAT, the output taken off the program: the PMT of program 1 has no reference left |
| CiLength.LengthRoundTrip | cLdvben50221.cpp:287-328 | GetLength undoes SetLength for all lengths below 2^31, whatever follows |
| CiLength.SetLength | cLdvben50221.cpp:299-328 | the length field is written and nothing else |
| CiLength.GetLength | cLdvben50221.cpp:287-297 | reads short and long forms, wrapping at 32 bits |
| CiTpdu.TpduFits | cLdvben50221.cpp:373-417 | every TPDU fits MAX_TPDU_SIZE |
| CiTpdu.ParseTpdu | cLdvben50221.cpp:451-484 | a data TPDU reads back as its slot, tag and content, whatever status follows it |
| CiTpdu.FragmentsOk | cLdvben50221.cpp:544-561 | no fragment is empty or too long, and exactly the last is marked as the last |
| CiTpdu.FragmentsJoin | cLdvben50221.cpp:476-502 | the fragments of an SPDU deliver exactly that SPDU, once |
| CiTpdu.SlotsApart | cLdvben50221.cpp:453-502 | a slot that is not reset takes in what comes for it as if there were no other slot |
| CiTpdu.SpdusArriveInterleaved | cLdvben50221.cpp:432-502 | however slots are interleaved and reset, a slot that is not delivers exactly the SPDUs sent on it, in order, with nothing left over |
| CiTpdu.LastDecides | cLdvben50221.cpp:480-502 | whatever the fragments, the SPDU is delivered exactly if the last TPDU is not empty; otherwise its bytes stay in front of the next |
| CiTransport.TpdusRead | cLdvben50221.cpp:528-565 | all TPDUs queued for an SPDU fit, and read back as its fragments |
| CiTransport.Slot.Append | cLdvben50221.cpp:419-424 | the TPDU is linked at the end, and the tail link is the list's end again |
| CiTransport.Slot.TakeFirst | cLdvben50221.cpp:353-355 | the first TPDU leaves, so that what left and what waits is what was queued, in order |
| CiTransport.Slot.TpduWrite | cLdvben50221.cpp:341-371 | called only while no answer is expected; afterwards one is, unless the write failed or nothing waited |
| CiTransport.Slot.Build | cLdvben50221.cpp:378-417 | the bytes of the TPDU, written into a buffer of MAX_TPDU_SIZE |
| CiTransport.Slot.TpduSend | cLdvben50221.cpp:373-430 | the TPDU is queued behind the others, one TPDU leaves unless an answer is expected, and when writes succeed an answer is expected afterwards |
| CiTransport.Slot.SendSpdu | cLdvben50221.cpp:544-564 | all TPDUs of the SPDU are queued in order, or a prefix of them if a write fails |
| CiTransport.Slot.Clear | cLdvben50221.cpp:1538-1552 | the lists are empty and well formed |
| CiTransport.Device.SessionOpen | cLdvben50221.cpp:598-645 | the first free session is taken for the slot and resource, one answer is queued on the slot that reads back as status, resource and session number, and if that worked the session is to be opened when the slot answers; without a free session nothing happens |
| CiTransport.Device.SpduSend | cLdvben50221.cpp:528-565 | the SPDU queued on the slot of the session is the session header and the data; no session changes |
| CiTransport.SpduReads | cLdvben50221.cpp:533-539 | tag, length, session number and data read back from an SPDU |
| CiTransport.Device.SessionSendClose | cLdvben50221.cpp:720-734 | one TPDU is queued on the slot of the session, which reads back as the request to close it |
| CiTransport.Device.SessionClose | cLdvben50221.cpp:736-755 | the session is free again, and one answer is queued on its slot that reads back as status and session number |
| CiTransport.Device.SessionOpenCb | cLdvben50221.cpp:567-596 | the pending session is opened once, or given up if its resource is not one of the five that are known |
| CiTransport.Device.SpduHandle | cLdvben50221.cpp:757-801 | for every SPDU what becomes of the session table and which answer is queued where: a request takes the first free session, a request to close frees one, both are answered; a response that closes or refuses frees one without an answer; session data and an accepted creation change no session; anything else does nothing |
| CiTransport.Device.TakeData | cLdvben50221.cpp:471-504 | session bytes are gathered and delivered as Accept says; the last TPDU that is not empty has the whole SPDU handled, any other changes nothing else |
| CiTransport.Device.TpduRecv | cLdvben50221.cpp:432-521 | the slot takes in the TPDU and other receive sides are left alone; an SPDU that is complete is handled as SpduHandle says; then one thing that waited goes on, a queued TPDU before a pending session before a request for the module's data, and no slot is left with something to do and no answer to wait for |
| CiTransport.Device.GoOn | cLdvben50221.cpp:511-519 | what has waited for the answer goes on, one thing at a time: a pending session comes up exactly if nothing else was queued, T_RCV is sent exactly if the module has data and nothing else waits |
| CiTransport.Device.SessionCreateResponse | cLdvben50221.cpp:685-718 | a session that was refused or is for an unknown resource is given up, no other changes |
| CiTransport.Device.ResetSlot | cLdvben50221.cpp:1525-1563 | the slot is empty and not active, exactly its sessions are free, other slots and sessions keep what they have, and what left any slot stays |
| CiTransport.Device.Poll | cLdvben50221.cpp:1574-1623 | a slot with a module is active or waits for one to answer, a slot without one is not active, and every active slot expects an answer; sessions of reset slots are free and all others stay; nothing is taken in or delivered, TPDUs that left stay in order, and but for slots that were reset nothing queued or gathered is lost |
| CiTransport.Device.PollSlot | cLdvben50221.cpp:1583-1602 | an active slot without a module is reset, a slot with a module that is not active and expects no answer is sent T_CREATE_TC, and else nothing happens |
| CiTransport.Device.PollIdle | cLdvben50221.cpp:1612-1622 | an active slot that expects no answer is sent one empty T_DATA_LAST, or reset if that cannot be written; any other is left alone |
| CiRuns.Run | cLdvben50221.cpp:341-801 | over every run of TPDUs read, polls, sends and resets: the lists stay well formed, nothing stalls, TPDUs leave a slot in the order queued, every slot has gathered and delivered exactly what the TPDUs read and the resets make of it, and step by step the session table and the answers queued are what the SPDUs delivered, the answers to pending sessions and the resets make of them |
| CiRuns.RequestAnswered | cLdvben50221.cpp:598-645 | on every run a request while a session is free takes the first one, and the slot is told resource, status and number, whether the resource is known or not |
| CiRuns.TakenOnRequest | cLdvben50221.cpp:598-645 | a session is taken on such a request only, by the slot that asked and for the resource it asked for |
| CiRuns.EndsFor | cLdvben50221.cpp:685-801 | a session in use goes to no other slot or resource; it ends if the module closes or refuses it or its slot is reset, and else only if its resource is not known when it is to be opened |
| CiRuns.CloseAnswered | cLdvben50221.cpp:736-755 | a request to close a session is answered on the slot of that session, with its number |
| CiRuns.SameSession | cLdvben50221.cpp:567-801 | a session that is in use over any stretch of a run is the same all the time |
| CiRuns.RunDelivers | cLdvben50221.cpp:432-565 | on every run, if what came from a slot that was not reset are the TPDUs that SPDUSend queues for some SPDUs, in order, with any status behind each, exactly these SPDUs are delivered, each once |
| CiRuns.QueuedReads | cLdvben50221.cpp:373-484 | the bytes queued for SPDUs read as their fragments |
| Mmi.StringsApart | cLdvben50221.cpp:201-207 | strings stored do not overlap and end within the size |
| Mmi.RegionsApart | cLdvben50221.cpp:230-244 | object, captions, aligned pointer table and choices follow each other within the size |
| Mmi.Serialize | cLdvben50221.cpp:209-249 | succeeds exactly if all fits the maximum, and then the message says what the object says |
| Mmi.Unserialize | cLdvben50221.cpp:251-285 | gives back every serialized object but menus and lists without choices; of any other message it accepts exactly those whose strings have a zero up to the byte behind the message and whose table ends before the end, and takes its strings |
| Mmi.EndsWithin | cLdvben50221.cpp:251-256 | a string that was let through ends within the message exactly if the message has a zero from its start on |
| Mmi.EndsBehind | cLdvben50221.cpp:251-256 | of a message of one byte, the string goes on behind its end |
| Bits.GetBits | cLdvbatsc.c:27-48 | equals the most-significant-bit-first slice for every field that lies within the bytes read |
| Bits.SliceSplit | cLdvbatsc.c:27-48 | adjacent slices concatenate |
| Bits.ChannelFields | cLdvbatsc.c:80-108 | the fields of a channel follow each other, and exactly reserved2 is out of the reader's reach |
| Bits.ChannelComplete | cLdvbatsc.c:80-108 | the fields put together are the whole record, no bit lost or read twice |
| Timestamps.Stamper.SetDts | cLdvbdemux.cpp:740-768 | each block of the read gets its stamp, all of the first read that of the read itself, and the time of the read is remembered |
| Timestamps.GapsEven | cLdvbdemux.cpp:752-764 | neighbours are the n-th part of the time since the last read apart, rounded down or up; of the first read they are not apart |
| Timestamps.BatchWithin | cLdvbdemux.cpp:752-767 | the last stamp is the time of the read, the first is not before, and if the clock went on after, the last read |
| Timestamps.AllAscend | cLdvbdemux.cpp:740-768 | on a clock that does not go back stamps never go back, within or across reads |
| PsiTables.Pack | cLdvbdemux.cpp:2618-2648 | the sections of the table one after the other |
| PsiTables.Unpack | cLdvbdemux.cpp:2654-2697 | cuts the buffer at section ends, and fails on an invalid section |
| PsiTables.RoundTrip | cLdvbdemux.cpp:2618-2697 | unpacking undoes packing, for every complete table of up to 256 valid sections |

## Left out

- Outputs.Mux.Put: the MTU and mode of an output with packets queued do not change (cLdvboutput.cpp:966-980); timestamps plus latency stay below INT64_MAX.
- Outputs.Mux.Handle: an output that rewrites PIDs must not be given a block twice (registered on a PID and passthrough at once, or registered on the PID of the time of day and given it by SendTDT), since then a block is twice in a packet and does not get its PID back; the watchdog is left out.
- OutputRuns.Run: an output that is opened again keeps its MTU, latencies and address; outputs in use are not reconfigured; PIDs with EMM are left out; a packet's timestamp plus any latency stays below INT64_MAX.
- Outputs.Mux.Close: the pointer to a freed EIT packet stays behind in the program until the output is set up again; here it is gone at once.
- Outputs.Mux.OutputPsiSection: the carry-over buffer is emptied before the packet is put instead of after, which nothing can tell apart.
- PidMap.Tables.MapEsPid: the search for a free PID has no bound in the program; here there must be a free PID.
- Demultiplexer.Demux.HandlePat: the program loops of all sections of a PAT are taken as one; the emitted PAT, SDT and NIT are left out.
- Demultiplexer.Run: the mode in which PMTs are read only for outputs (select_pmts off), EMM and ECM are left out; with reloads PMT references can be lost (`PmtLost`), so that no filter is open for nothing is stated without them; for outputs with a program and a list of PIDs the source keeps no such equality when the PCR moves.
- Demultiplexer.Demux.Change: PIDs in a configuration are below 8192; names, remapping and CAM updates are left out.
- CiLength.GetLength: a length field that claims more bytes than there are is not modelled.
- CiTransport.Device.TpduRecv: a data TPDU that claims more bytes than were read is not modelled.
- CiTransport.Device.Poll: applications are modelled as arbitrary data, and requests to close, on arbitrary sessions, also when a session comes up; the timer that resets a slot without answer is left out, ResetSlot is not.
- CiTransport.Device.SessionClose: session numbers outside of 1 to 32, for which the source reaches beyond its table, are ignored here, wherever an SPDU names them.
- PsiTables.Unpack: a buffer that ends inside a section is not modelled.
- Contracts of the PSI library that is not in the repository: psi_split_section, psi_table_section and the validators are stated as functions or parameters; CRCs, field accessors and section assembly are left out.
- Reuse of packet memory, block_DeleteChain, block_Vacuum, blocks of TS packets that are dropped as invalid: a packet's memory has no identity here, since packets are values, and the other three only free blocks that nobody holds, which Drop covers.
- Sockets, files, signals, the event loop, character sets, tuner, UDP and ASI input, statistics, the command socket: input and output.
- CAPMT building, HandleATSCSection, NIT and SDT texts, parsing of the command line and the configuration file.
