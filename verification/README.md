# coroTracer, modelled and proved

coroTracer traces coroutines across processes without locks. A tracee (the C++ or the Rust SDK) writes suspend and
resume events into shared memory; a Go engine harvests them into a JSONL log, which exporters read back. This project
models four connected parts and proves what they promise.

* **The ring and its SeqLock.** Every station has one writer and eight slots. A write stores an odd `seq`, four fields one
  at a time, then an even `seq`. The reader loads `seq`, copies the fields one at a time, loads `seq` again, and commits
  or discards.
* **The sleep/wakeup handshake.** The engine flushes, raises `TracerSleeping`, scans once more and blocks on a socket with
  a deadline; writers load the flag after each event, swap it from 1 to 0 and send one byte.
* **Station allocation and the poll state machine.** `fetch_add` with a capacity check; `PollTrace` and `TracedFuture`.
* **The log as text.** The printer, the buffered file, the streaming reader and the SQL quoting.

## How it is laid out

| file | content |
|---|---|
| `Ring.dfy` | arithmetic of the eight-slot ring |
| `Machine.dfy` | the whole system as steps of one shared load, store or swap, over any number of probes and stations |
| `Safety.dfy` | the invariant of every run |
| `Handshake.dfy` | no lost wakeup, and what a wakeup costs |
| `Atomic.dfy` | the system with atomic reads and writes; every run of the machine is one of its runs |
| `LogLaws.dfy` | content, authorship, order, multiplicity and gaps of the log |
| `Window.dfy` | events are lost only by being overwritten |
| `Conserve.dfy` | what becomes of every event: logged, overwritten unread, or waiting whole in its slot |
| `Converge.dfy` | the engine comes to rest once the tracee stops; what one pass achieves, with writers quiet or running |
| `Accounts.dfy` | accounts over whole runs: wakeup bytes, the flag, what each scan decides |
| `Order.dfy` | the stable sort by `seq` and exactly when it restores the order of writing |
| `Cause.dfy` | why the order is lost: which loads and stores have to race |
| `Race.dfy` | uninterrupted writes and harvests, and a run in which a racing writer spoils the order |
| `QuietPass.dfy` | passes during which one station's writer is quiet: exactly once, price of a round, order recovery |
| `Tickets.dfy` | exclusive stations, and the 32-bit counter |
| `Engine.dfy` | `Harvest`, `doScan` and `hotHarvestLoop` as methods over memory that changes between any two accesses |
| `Poll.dfy` | what a polled future writes; `PollTrace` and `TracedFuture::poll` as methods over memory that changes between any two accesses |
| `Numerals.dfy`, `Jsonl.dfy` | printing numbers and records, the buffered log file |
| `Parsing.dfy`, `Json.dfy`, `Stream.dfy` | decoding a record, streaming a file, the round trip |
| `LogFile.dfy` | the engine's log as a file on disk, and what its readers get |
| `Quoting.dfy` | SQL literals and identifiers against their readers |

The concurrent part is one transition system, `Machine.Step`, with histories (completed events per station, holder of
each ticket, armings, swaps, bytes sent) kept beside the state. `Machine.Reachable` holds of the states its runs lead to,
from zeroed memory. The methods of `Engine.TracerEngine` manipulate the engine's own fields as the Go code does, let the
tracee run before every access to shared memory, and promise through `At` that the state they leave is one a run of the
machine leads to; `IsReachable` turns that into `Reachable`, so every theorem about reachable states applies to them.
`Poll.PollTrace` does the same for a probe: the engine and all other probes run before each of its accesses.

## Assumptions

* Single loads and stores interleave sequentially consistently. The odd store of a write is only a release store
  (`SDK/c++/coroTracer.h:159`), so this is an assumption about the hardware, not a consequence of the code.
* `seq` and the printed values stay below 2^64. Counters are unbounded naturals; the 32-bit ticket counter is treated
  separately in `Tickets.ExclusiveUntilWrap`, and `Tickets.CounterAgrees` says how long the two agree.
* Shared memory starts zeroed, the socket is connected and holds at least one byte, writes to the log file succeed.
* Thread ids, clock readings, frame addresses and probe ids are arbitrary inputs.

Where the documentation and the code differ, the model follows the code: `docs/cTP.md:87-94` picks the slot by
`seq % 8` and knows no odd phase, and `docs/cTP.md:106` sleeps after several empty harvests, while the code picks the slot
by `event_count % 8`, stores an odd `seq` first, and arms after one empty scan.

## Model

| member | source | states |
|---|---|---|
| Ring.CountStep | SDK/c++/coroTracer.h:153-174 | one more event advances exactly one slot by one round, and that round's event is the new one |
| Ring.CountBounds | SDK/rust/src/lib.rs:278-290 | event k is among the first n exactly if its slot has come to round k/8+1; slot and round determine the event |
| Safety.RingStepOk | SDK/c++/coroTracer.h:153-174 | every single store of `write_trace` leaves the ring spelling out the completed events, with the slot in progress odd and filled field by field |
| Safety.WriterKeeps | SDK/c++/coroTracer.h:124-183 | any step of any probe keeps the invariant and only moves slots forward; an even `seq` that has not moved vouches for an unchanged payload |
| Safety.ReaderKeeps | structure/station.go:43-87 | any step of the engine keeps the invariant: no torn payload passes validation, `lastSeen` is the last logged `seq` |
| Safety.Always | engine/engine.go:143-163 | the invariant holds in every reachable state, for any number of probes and stations |
| Handshake.BlockedIsWatched | engine/engine.go:126-143 | whenever the engine is blocked, the log is on disk, a cleared flag means a byte is sent or about to be, and with the flag set any station with an unharvested event has a writer that has yet to look at the flag |
| Handshake.NoLostWakeup | engine/engine.go:126-163 | blocked on an empty socket with writers out of `write_trace`, no slot holds an unharvested event, the last eight events of every station are logged, and all of it is flushed |
| Handshake.WakeupEconomy | SDK/c++/coroTracer.h:176-182 | swaps won plus the flag never exceed the armings, each byte sent is one swap, and the socket holds no more bytes than were sent nor than its capacity: at most one byte per arming |
| Handshake.WriterCovers | SDK/rust/src/lib.rs:292-302 | a station once covered stays covered, and any store to a slot makes its station covered |
| Atomic.StepSimulates | structure/station.go:50-84 | one load or store is at most one step of the system whose writes and reads are atomic, at the even store and at the second load |
| Atomic.Linearizable | structure/station.go:43-87 | every interleaved run ends in the same histories and the same log as the run of its atomic effects |
| LogLaws.LoggedIsWritten | structure/station.go:79-84 | each record is the full payload of the (seq/2)-th event of its slot and carries the id of the probe holding the station, although the id is read outside the SeqLock |
| LogLaws.OnlyHolderWrites | SDK/c++/coroTracer.h:127-135 | only the even store of the probe holding a station's ticket adds to its history, and it adds that probe's event |
| LogLaws.LoggedByItsWriter | structure/jsonl.go:24 | in every run each record was written by the probe whose id it is printed with: the step that completed its event is that probe's, with that payload |
| LogLaws.SlotDiscipline | structure/station.go:53-84 | per slot the logged `seq` are even, at least 2, strictly increasing; `lastSeen` is the last of them and never ahead of the slot |
| LogLaws.RingArithmetic | SDK/c++/coroTracer.h:153-174 | after n completed events slot j stands at 2*floor((n-j+7)/8), one more while it is being rewritten |
| LogLaws.SlotOrder | structure/station.go:53-84 | the log never repeats an event: later records of a slot have larger `seq` |
| LogLaws.SeqAtMostEightTimes | SDK/rust/src/lib.rs:278-290 | one station's log holds any given `seq` at most eight times |
| LogLaws.GapCounting | structure/station.go:53-84 | `lastSeen`/2 minus the slot's records is exactly the number of its events missing from the log, and each of those was overwritten |
| Conserve.Conservation | structure/station.go:45-86 | in every reachable state completed events = logged + overwritten unread + waiting; the second are never logged in any continuation, the third stand whole in their slots, at most one in each |
| Conserve.WaitingIsWhole | SDK/rust/src/lib.rs:278-290 | an event neither caught nor being overwritten is the newest of its slot, which holds all of it under its own `seq`, past `lastSeen` |
| Conserve.GoneForGood | structure/station.go:69-77 | an event whose slot was taken for the event eight later before a valid copy never reaches the log, whatever happens |
| Window.FirstLoadHolds | structure/station.go:50-59 | a first load after event k is complete leaves k logged, its slot being taken for event k+8, or its slot being copied |
| Window.LossOnlyByOverwrite | structure/station.go:45-85 | if the first load comes after event k and the second before event k+8 begins, k is in the log once the slot is left, whatever happens in between and after |
| Converge.Progress | engine/engine.go:127-162 | every engine step short of rest catches up with a `seq`, reads bytes, or brings the loop nearer its blocked read |
| Converge.QuiescentConvergence | engine/engine.go:126-163 | once writers stop, from any phase and either flag value, with reads ending by data or deadline in any pattern, the engine reaches a blocked read with the flag up, everything harvested and flushed |
| Converge.RestIsFinal | engine/engine.go:126-163 | from there on, a hang-up included, it logs nothing more and leaves nothing unflushed |
| Converge.RestsIffFair | engine/engine.go:142-161 | it reaches a blocked read on an empty socket if and only if reads of a non-empty socket do not end by their deadline for ever, and then everything is harvested and flushed |
| Converge.OnePassIsEnough | engine/engine.go:112-124 | once writers stop, one full pass leaves the last min(8, n) events of every station in the log |
| Converge.PassCatchesOrLoses | engine/engine.go:112-124 | with writers running in any interleaving, every event complete when a pass begins is in the log when it ends or its slot has been taken for the event eight later |
| Converge.CaughtOrLostInTime | engine/engine.go:112-124 | so it is after 56 engine steps per station and two more from the start of a pass, however many writer steps lie between |
| Accounts.ByteAccount | SDK/rust/src/lib.rs:293-302 | over every run, bytes in the socket + taken by reads of at most 1024 + dropped at a full socket = wakeups sent <= flags swapped, and swaps plus the flag <= armings, all counted step by step |
| Accounts.FlagMoves | engine/engine.go:135-161 | who moves the flag: arming raises it, disarming, waking and a probe's swap lower it, nothing else touches it; a deadline leaves it as it found it |
| Accounts.FlagOnlyAfterDeadline | engine/engine.go:137-161 | over every run, outside the armed window and before leaving the flag is up only if the last blocked read ended by its deadline |
| Accounts.ScansDecide | engine/engine.go:128-143 | over every run the engine flushes and arms only after a hot scan that printed nothing, blocks only after a rescan that printed nothing, disarms only after one that printed, and starts one hot scan right after another only if that one printed |
| Converge.ScanCatchesOrLoses | engine/engine.go:112-124 | every run from the start of a scan to the end of one logs or loses every event complete at its start |
| Order.SortWorksIff | structure/station.go:45-84 | in every reachable state a stable sort by `seq` of one station's log is the order of writing if and only if its records of equal `seq` were logged in slot order |
| Order.SortWorksUnlessLost | structure/station.go:45-84 | over every run: the sort works unless some step logged an event while an earlier event of the same round was not in the log, and that one got in later |
| Order.OvertakenIsComplete | SDK/c++/coroTracer.h:153-174 | an event that a pass prints past, unlogged, was complete by then |
| Cause.OvertakenWasEarly | structure/station.go:50-59 | if such an event is logged in the end, the pass had loaded its slot's `seq` before its even store |
| Cause.EarlyIsOvertaken | structure/station.go:50-77 | conversely, an event whose slot a pass looked at too early is not in the log when that pass prints past it |
| Cause.SortWorksUnlessRaced | structure/station.go:45-84 | over every run the sort works if and only if no writer raced a pass: no pass loads a slot's `seq` before an event there is complete, then prints a later slot's event of that round, with the first event logged in the end |
| Race.SevenStepsWrite | SDK/rust/src/lib.rs:278-290 | the seven steps of a write, uninterrupted, put the whole event into one slot and move its `seq` two up |
| Race.SevenStepsHarvest | structure/station.go:45-85 | seven uninterrupted engine steps log a slot that has something new and update `lastSeen` |
| Race.RacingMisorders | structure/station.go:45-84 | a run of the machine, given action by action, in which a writer races the pass, the two records share `seq` 2 in the wrong order and the sort cannot put them right; the race is the one `Cause` names |
| QuietPass.HitsAll | SDK/rust/src/lib.rs:278-290 | going from n0 to n events between two passes, the second finds min(8, n-n0) of them |
| QuietPass.ScanReads | engine/engine.go:112-124 | a scan in no state of which station i's writer is between its stores, whatever all other probes do, reads that station as one undisturbed pass |
| QuietPass.HarvestsExactlyOnce | structure/station.go:43-87 | after rounds quiet for a station its log holds every event, each once, if and only if no round completed more than eight; in any case records plus the excess over eight per round make up all events |
| QuietPass.SortRestoresOrder | structure/station.go:45-84 | after any such rounds, of whatever size, a stable sort by `seq` of the station's log is the order of writing, each record with its event's payload |
| Tickets.ExclusiveStations | SDK/c++/coroTracer.h:127-135 | no two probes ever hold the same station |
| Tickets.OverCapacityIsInert | SDK/rust/src/lib.rs:193-195 | a probe whose ticket is over capacity never changes shared memory again |
| Tickets.ExclusiveUntilWrap | SDK/c++/coroTracer.h:128-130 | with the 32-bit counter, tickets below capacity stay distinct over n constructions if and only if n is at most 2^32 or there are no stations |
| Tickets.CounterAgrees | SDK/rust/src/lib.rs:191-195 | in every reachable state all tickets handed out equal those of the 32-bit counter if and only if at most 2^32 were drawn, and up to 2^32 probes draw no more |
| Engine.TracerEngine.constructor | engine/engine.go:54-90 | a new engine is at the head of its loop in the initial state |
| Engine.TracerEngine.FirstLoad | structure/station.go:48-59 | the first load of `seq` and the two skip conditions are one step of a run |
| Engine.TracerEngine.CopyPayload | structure/station.go:61-67 | the four fields are copied one at a time in the order of the code, each copy one step of a run |
| Engine.TracerEngine.SecondLoad | structure/station.go:69-77 | the second load decides between commit and discard |
| Engine.TracerEngine.Commit | structure/station.go:79-84 | exactly one record is appended, then `lastSeen` is set |
| Engine.TracerEngine.HarvestSlot | structure/station.go:45-85 | one slot, whatever the tracee does between accesses, is a stretch of a run that logs at most one record |
| Engine.TracerEngine.Harvest | structure/station.go:43-87 | the eight slots in order are a stretch of a run; the result counts the records logged |
| Engine.TracerEngine.DoScan | engine/engine.go:112-124 | the clamped scan is a stretch of a run from loading the count to the end; the total counts the records logged; every event of every station complete before it is in the log after it, or its slot was taken for the event eight later |
| Engine.TracerEngine.Turn | engine/engine.go:127-162 | one turn of the loop: what was complete at its beginning is logged or overwritten at its end; it arms exactly once if its hot scan harvested nothing, else not at all; it ends exactly one blocked read if its rescan harvested nothing either, else none; the log grows by what the scans harvested |
| Engine.TracerEngine.Watch | engine/engine.go:136-161 | the armed half: a rescan, then the flag lowered if it harvested, else one blocked read |
| Engine.TracerEngine.Flush | engine/engine.go:134 | everything logged is on disk before the flag is raised |
| Engine.TracerEngine.Arm | engine/engine.go:135 | raising the flag is one step, followed by the rescan; the flag is up and one more arming counted |
| Engine.TracerEngine.Disarm | engine/engine.go:137-140 | lowering the flag is one step back to the head of the loop, and the flag is down |
| Engine.TracerEngine.Read | engine/engine.go:142-158 | the blocked read ends as the connection says, by data, deadline or hang-up, a read for data only if there is some, and control goes where each leads |
| Engine.TracerEngine.Wait | engine/engine.go:142-161 | the three ways on from a blocked read |
| Engine.TracerEngine.Leave | engine/engine.go:149-158 | after a hang-up one more scan and flush leave nothing unflushed, and every event complete at the hang-up logged or overwritten |
| Engine.TracerEngine.HotHarvestLoop | engine/engine.go:126-163 | any number of turns is a run of the machine; each turn arms or logs; after the first everything complete at the beginning is logged or overwritten |
| Poll.PollAlternation | SDK/rust/src/lib.rs:345-363 | however a future is polled its events alternate, it is suspended exactly when their number is odd, and there are two events per pending poll less the open one |
| Poll.PendingThenReady | SDK/rust/src/lib.rs:345-363 | p pending polls and a ready one write exactly 2p events |
| Poll.ActiveInOddSlots | SDK/rust/src/lib.rs:219-238 | in every run in which a probe writes what its polled future writes, whatever runs beside it, each record of its station is from its own poll: active exactly in odd slots, active ones with address 0, suspensions with their own poll's address, all with their own poll's stamps |
| Poll.StoryIsFromPolls | SDK/rust/src/lib.rs:345-363 | event 2m carries address, thread and time of the m-th pending answer, event 2m+1 thread and time of the poll after it and no address |
| Poll.OthersKeep | SDK/rust/src/lib.rs:171-174 | no step of the engine or another probe moves a probe or adds to its station's history |
| Poll.PollTrace.constructor | SDK/rust/src/lib.rs:178-211 | takes the next ticket amid interference; within capacity the station carries the probe's id and is not dead, otherwise the probe stays without |
| Poll.PollTrace.TakeTicket | SDK/rust/src/lib.rs:191-195 | `fetch_add` and the capacity check are one step of a run |
| Poll.PollTrace.StoreEvent | SDK/rust/src/lib.rs:278-291 | load, odd store, four fields in order and even store are each one step of a run; the station's history gains exactly the event |
| Poll.PollTrace.Notify | SDK/rust/src/lib.rs:293-302 | flag load, swap and the one byte are each one step of a run, taken as the one before allows |
| Poll.PollTrace.WriteTrace | SDK/rust/src/lib.rs:270-303 | with everyone else running between its accesses, an attached probe adds exactly this event to its station's history; a detached one touches nothing |
| Poll.PollTrace.OnResume | SDK/rust/src/lib.rs:219-224 | writes an active event without address only if pending, and clears it |
| Poll.PollTrace.OnPendingAddr | SDK/rust/src/lib.rs:235-238 | writes an inactive event with exactly the given address and stamps, and sets pending |
| Poll.PollTrace.MarkDead | SDK/rust/src/lib.rs:246-258 | sets the station's death bit only for a live, attached probe, and always ends dead and not pending |
| Poll.PollTrace.PollOnce | SDK/rust/src/lib.rs:345-363 | one poll advances events and `pending` as the story of the polls says, and a ready one marks the station dead; a detached probe writes nothing |
| Poll.PollTrace.RecordsAlternate | SDK/rust/src/lib.rs:345-363 | each record of a probe driven by `poll` alone is from its own poll |
| Poll.PollTrace.PollAll | SDK/rust/src/lib.rs:345-363 | a fresh probe polled with any sequence of answers tells exactly their story; every event and every record is from its own poll; the station of an attached, live one is marked dead exactly if an answer was ready |
| Numerals.DecimalRoundTrip | structure/jsonl.go:22-43 | printed numbers read back and have no leading zero |
| Numerals.AppendHex | structure/jsonl.go:11-17 | the nibble loop appends `0x` and the sixteen digits of the value |
| Numerals.HexInverts | structure/jsonl.go:11-17 | the printed address determines every 64-bit value |
| Numerals.HexOrder | structure/jsonl.go:11-17 | printed addresses sort as the addresses do |
| Jsonl.Marshal | structure/jsonl.go:22-48 | the pieces appended to the buffer spell the record as one JSON object and a newline |
| Jsonl.FieldsSpell | structure/jsonl.go:22-46 | the six members, letter by letter, in order |
| Jsonl.LineLength | structure/jsonl.go:22-48 | no printed line is longer than 160 bytes |
| Jsonl.StationWriter.Write | structure/jsonl.go:73-77 | the buffered write appends all of its text to disk and buffer together, and touches the disk only if the buffer is too small |
| Jsonl.StationWriter.WriteSafeSlot | structure/jsonl.go:73-77 | exactly one printed line is appended, within the line buffer's first 160 bytes |
| Jsonl.StationWriter.Flush | structure/jsonl.go:79-81 | everything written is on disk |
| Json.DecodeObject | export/common.go:47-50 | every printed object decodes to its record |
| Stream.StreamJSONL | export/common.go:35-61 | the scanning loop computes the stream: records in order, blank lines skipped, errors with their line number |
| Stream.StreamExplained | export/common.go:38-60 | any text is lines that read well and a rest; the stream delivers their records in order and ends at the first line at fault: too long, not decodable, or refused, the latter two with that line's number, a refused one delivered |
| Stream.TrimIs | export/common.go:42 | trimming takes white space off both ends, nothing else, and leaves none |
| Stream.FileRoundTrip | export/common.go:38-55 | a file of printed records with any blank lines in between delivers exactly those records in order |
| Stream.LogReadsBack | structure/jsonl.go:73-77 | the file of any log reads back entry by entry, addresses included, and never meets the scanner's limit |
| LogFile.Append | structure/jsonl.go:73-77 | one commit turns the file of a log's first n entries into that of the first n+1 |
| LogFile.Replay | structure/jsonl.go:73-81 | the engine's commits and last flush leave the log's text in the file, at least the flushed part on disk |
| LogFile.FileReadsBack | engine/engine.go:134-158 | whenever the engine is blocked or has returned, the file on disk is its whole log and reads back record by record |
| Quoting.LiteralRoundTrip | export/common.go:86-97 | SQLite and Postgres literals of any string read back as that string, the reader stopping at the closing quote |
| Quoting.MySQLIsOnePass | export/common.go:90-93 | the two sequential replacements equal one per-character map |
| Quoting.MySQLStringRoundTrip | export/common.go:90-93 | a MySQL literal of any string reads back as that string |
| Quoting.MySQLIdentifierRoundTrip | export/common.go:99-101 | a quoted MySQL identifier reads back as the name |
| Quoting.PostgresIdentifierRoundTrip | export/common.go:103-105 | a quoted Postgres identifier reads back as the name |

## Left out

* Weak memory: reorderings the hardware may make around the release stores and plain field stores.
* Wrap-around of the 64-bit `seq` and event counters.
* The station's birth time, padding and the version and magic fields; `is_dead` is a field of `Poll.PollTrace` and
  not of the shared state, since nobody else reads it.
* A second connection after the first has ended: the machine stops at `Returned`, where `Run` would accept again.
* Setting up and tearing down: mmap, files, sockets, process launch, flags, environment variables.
* A tracee without a socket, whose wakeups are dropped, and a tracer that is disabled altogether.
* The buffered writer spilling to disk before a flush is part of `Jsonl.StationWriter` but not of the machine, where
  `flushed` counts what an explicit flush has covered.
* Engine.TracerEngine.HotHarvestLoop: runs any given number of turns, where the source loops until the peer hangs up.
* Suspend/resume alternation for C++: `await_resume` also fires when `await_ready` is true.
* Json.DecodeObject: the decoder reads flat objects of unsigned integers, escape-free strings and booleans; escapes, nested
  values, `null`, fractions and case-insensitive keys of the full library decoder are refused or not matched.
* Stream.StreamJSONL: text is a sequence of single-byte characters, so only ASCII white space is trimmed; opening the file
  and read errors are not modelled.
* SQL schema text, running the database clients, and the CSV export.
* MySQL's mode without backslash escapes.
