# Irrigation controller: a model of its scheduling core

This project models the parts of the irrigation controller whose correctness does not show in any one
function: who owns a group's watering session, what a sequence of zones does second by second, the schedule
arithmetic around it, and the small stateful stores with promises over whole runs (rate limiter, zone rows,
watering history, redaction, debug flag, schema migrations, exclusivity watchdog). Each `.dfy` file is one
component; `dafny verify dfyconfig.toml` checks them all.

How to read it:

- **Concurrency** is a step machine (`GroupSessions`, `SkipRequests`, `DebugFlag`, `ZoneRows`). One action is
  one dictionary, event or table operation of one thread, so a list of actions is an interleaving.
- **Objects and loops** keep their form: classes with the source's dictionaries and tables as fields
  (`SessionTable`, `Jobs`, `ProgramTable`, `ApiRateLimiter`, `ZoneTable`, `ZoneRunTable`, `MigrationRunner`,
  `ZoneStates`, ...), and methods with loops. A method's contract equates what it leaves with a
  specification function of what it found, and says beside that, on its own fields and results, what this means;
  the lemmas are about those functions.
- **Time** is whole seconds. One timed-out one-second wait is one tick. Flags polled by a run, weather and
  switching durations are arbitrary inputs: nothing is assumed about them unless a `requires` says so.
- Zones being switched is reduced to "state becomes on" and "state becomes off".

## What the proofs say about the code

These places behave differently from what a comment or a reader would expect. The code is kept as it is; each
has a lemma with the failing case and, where there is one, the exact condition.

- Cancelling a group whose sequence is still queued leaves its session mark behind for good: every program of
  the group is then turned away until somebody starts the group by hand again (`CancelStrandsQueuedStart`,
  `StrandedUntilNewStart`, `StrandedBlocksPrograms`). Exact guard: `CancelKeepsCoveredIff`.
- A cancel can be undone before the cancelled sequence has seen it. Starting the group again does it: the new
  sequence takes over the set event, stops at its first check and lowers the flag, and the cancelled one goes on
  watering (`RestartUndoesCancel`). So does sharing: where a program and a sequence hold one event, whichever
  cleans up first lowers the flag for both (`ProgramUndoesCancel`, `SequenceUndoesCancel`). The flag is safe if
  and only if its event is no longer the group's entry, or nobody else holds it or may come to hold it
  (`FlagIsSafeIff`); then the sequence does stop (`CancelledSequenceStops`).
- "Only the planter pops" (irrigation_scheduler.py:1592-1593) is not what the clean-up does. It tests the identity
  and pops in two steps, so a late pop can drop the mark of a newer start (`LatePopDropsNewEntry`): an entry can
  go without a new identity test if and only if a pop is pending from an old one (`OnlyTestsDropIff`). And a
  sequence that captured a program's event pops it while the program still runs, which then looks idle and
  cannot be cancelled (`RunningProgramLosesMark`): the program's mark is safe if and only if nobody else holds its
  event or may come to hold it and no pop of the group is pending (`MarkIsSafeIff`).
- The conflict check reads the day list before it is stored. A list within 1..7 is shifted on storing, and the
  stored program may conflict; `RequestIsSafeIff` says for which requests it cannot.
- The one-sided duration check misses a zone that takes no minutes at present and gets some
  (`OneSidedCheckSufficesIff`).
- The limiter's pruning age of 120 s is exactly the longest window it can serve (`WindowIsSafeIff`);
  routes/system_config_api.py:82 uses 300 s.
- The bulk next run can be later than the per-zone one when a program lists a zone twice: the answers agree if and
  only if some program that offers the earliest run lists the zone once, or the zone takes no time
  (`AnswersAgreeIff`, for one program `AnswersAgreeForOneIff`).
- The boot clean-up relabels open runs without ending them, so the open run found afterwards is the same row,
  contrary to the comment at services/app_init.py:142-147 (`BootAbortLeavesRunsOpen`).
- The docstring at services/audit.py:80-82 promises that flipping the debug flag takes effect immediately. A lookup
  caught between its read and its store puts the old value back (`LateStoreHappens`); the invalidation is
  effective if and only if no such value differs from the settings (`InvalidationTakesEffectIff`).
- With a limit below one, and only then, the rate limiter raises instead of answering (`RaisesIff`).

## Model

| member | source | states |
|---|---|---|
| GroupSessions.NoStuckSession | irrigation_scheduler.py:708-790 | over every interleaving of start calls, queued jobs, sequences, programs and cancels that strand nothing: every session mark has somebody who will still visit it, and once all have ended no group is marked busy |
| GroupSessions.RunKeepsCovered | irrigation_scheduler.py:1592-1664 | the same from any covered state on, for runs of any length |
| GroupSessions.StepKeepsCovered | irrigation_scheduler.py:2046-2069 | no single action of any thread leaves a mark uncovered, unless a cancel removes the queue of a group for which no thread works |
| GroupSessions.HolderAfter | irrigation_scheduler.py:1594-1656 | hand-over: the holder of a mark after one action is named (start call to queued job, queued job to sequence, removed job back to the start call that removed it) |
| GroupSessions.NewEntryHasHolder | irrigation_scheduler.py:783-788 | a mark that appears is held at once by the call or program that planted it |
| GroupSessions.CancelKeepsCoveredIff | irrigation_scheduler.py:2133-2180 | clearing a covered group's queue keeps it covered if and only if it had no mark, no queued job, or a thread working for it |
| GroupSessions.CancelStrandsQueuedStart | irrigation_scheduler.py:2167-2178 | start, queue, cancel: everything has ended and the group is still marked |
| GroupSessions.StrandedUntilNewStart | irrigation_scheduler.py:1592-1597 | a stranded mark survives every run without a new start call for the group |
| GroupSessions.StrandedBlocksPrograms | irrigation_scheduler.py:739-742 | while a group is stranded the guard blocks every program that waters it |
| CancelFlags.FlagIsSafeIff | irrigation_scheduler.py:2058-2061 | whoever else holds the cancelled event: the set flag stays set, in every run without a new start of the group and up to the cancelled sequence's own clean-up, if and only if the event is no longer the group's entry, or no start call, queued job, sequence of the group or program other than that sequence holds it or may come to hold it |
| CancelFlags.CancelStaysSet | irrigation_scheduler.py:2134-2136 | one run: the flag stays set as long as the event is not the entry, or nobody else holds it and no further sequence of the group begins |
| CancelFlags.FlagIsLowered | irrigation_scheduler.py:1112-1126 | whenever the condition fails, a run without a new start lowers the flag while the cancelled sequence goes on holding the event |
| CancelFlags.ReachableIsCancelled | irrigation_scheduler.py:2134-2136 | in every state the idle scheduler can come to, a sequence whose captured event is set is a cancelled one in that sense |
| SessionMarks.RunKeepsSound | irrigation_scheduler.py:1594-1595 | in every run an event marks one group only, and no entry or captured event is one that is still to be made |
| CancelFlags.RestartUndoesCancel | irrigation_scheduler.py:1594-1597 | from the idle scheduler: start, cancel, start again, and the cancelled sequence holds a lowered flag |
| CancelFlags.ProgramUndoesCancel | irrigation_scheduler.py:1121-1126 | from the idle scheduler: a program and a sequence share an event; after a cancel the program's clean-up lowers the flag and the sequence still holds it |
| CancelFlags.SequenceUndoesCancel | irrigation_scheduler.py:2058-2061 | the same the other way round: the sequence's clean-up lowers the flag and the program still runs |
| BoundedCancel.CancelledSequenceStops | irrigation_scheduler.py:1772-1775 | over all runs of all threads: when the zone loop looks at the shared flag, then from its first look after a safe flag went up no zone passes its check or gets another tick, and a zone just past its check gets none and is the last |
| MarkSafety.OnlyTestsDropIff | irrigation_scheduler.py:2059-2061 | an entry stands in every run in which nobody passes the identity test for its group, if and only if in the state at hand no thread has passed it already with the pop still to come |
| MarkSafety.MarkIsSafeIff | irrigation_scheduler.py:1121-1126 | a program's mark lasts until its own clean-up, in every run without a new start of the group, if and only if no start call, job, other program or sequence of the group holds its event or may come to, and no pop of the group is pending |
| MarkSafety.MarkIsDropped | irrigation_scheduler.py:2059-2061 | whenever that condition fails, a run without a new start leaves the group without a mark |
| SessionMarks.EntryStandsIff | irrigation_scheduler.py:2059-2061 | in every interleaving an event is the group's entry afterwards if and only if it was and no step popped the group's entry; a replaced event never comes back |
| SessionMarks.OthersAreNotCancelled | irrigation_scheduler.py:2133-2137 | a cancel reaches its own group only: in no run without a cancel of a group does the flag of its entry, or of an event that one of its sequences captured, go up |
| SessionMarks.LatePopDropsNewEntry | irrigation_scheduler.py:1121-1126 | from the idle scheduler: a program and a sequence share one event and leave together, and the second pop removes the mark of a start call made in between |
| SessionMarks.RunningProgramLosesMark | irrigation_scheduler.py:2059-2061 | from the idle scheduler: a sequence pops the event of a program that still runs; the group looks idle and a cancel reaches nobody |
| SessionMarks.ProgramKeepsMarkIff | irrigation_scheduler.py:1121-1126 | a program finds its own event at its clean-up if and only if nobody popped the group's entry before |
| SessionTable.IrrigationScheduler.IsGroupSessionActive | irrigation_scheduler.py:2079-2091 | a session is active exactly when the group has an entry |
| SessionTable.IrrigationScheduler.SetDefaultEvent | irrigation_scheduler.py:1594-1597 | the entry found is kept; otherwise a new event is planted; the caller learns which |
| SessionTable.IrrigationScheduler.RemoveQueued | irrigation_scheduler.py:1606-1622 | takes away all queued sequences of the group and nothing else |
| SessionTable.IrrigationScheduler.StartGroupSequence | irrigation_scheduler.py:1542-1666 | without zones it answers False and changes nothing; otherwise the group is active, under the event it had if any, with exactly one queued sequence, and other groups' entries and jobs are as before |
| SessionTable.IrrigationScheduler.BeginSequence | irrigation_scheduler.py:1734-1737 | a queued sequence leaves the queue holding the event its group has, or none |
| SessionTable.IrrigationScheduler.FinishSequence | irrigation_scheduler.py:2046-2062 | after the clean-up the group is idle exactly if it was or its entry was the captured event, whose flag is then down; no other entry or flag changes |
| SessionTable.IrrigationScheduler.RunGroupSequence | irrigation_scheduler.py:1737-2062 | a sequence that nobody disturbs leaves its group idle and the others as they were |
| SessionTable.IrrigationScheduler.AskEveryGroup | irrigation_scheduler.py:739-741 | the guard blocks exactly if some group of the program is active |
| SessionTable.IrrigationScheduler.PlantEveryGroup | irrigation_scheduler.py:783-790 | the program plants and remembers an event for exactly the groups that had none; the others keep theirs |
| SessionTable.IrrigationScheduler.BeginProgram | irrigation_scheduler.py:708-790 | a program goes on exactly if none of its groups is active, every one of which then has an event of its own; otherwise it leaves no trace |
| SessionTable.IrrigationScheduler.FinishProgram | irrigation_scheduler.py:1112-1126 | the clean-up takes away exactly the entries that are still the program's own events and lowers exactly those events' flags |
| SessionTable.IrrigationScheduler.RunProgram | irrigation_scheduler.py:708-1134 | a program that nobody disturbs leaves every group's entry as it found it |
| SessionTable.ReachedIsCovered | irrigation_scheduler.py:1592-1664 | each of the functions above is a run of the step machine and so leaves no mark that nobody will visit |
| SessionTable.IrrigationScheduler.CancelGroupJobs | irrigation_scheduler.py:2126-2180 | on the scheduler's own dictionaries: a flag is up afterwards if and only if it was or it is that of the group's entry; exactly the group's queued jobs go; entries, running sequences and programs stay; and the group stays covered exactly under the stated condition |
| SequenceRunner.RunGroupSequence | irrigation_scheduler.py:1772-2031 | on the log: every zone with minutes due had its turn, or a look found the cancel flag up after the last turn and before it; so without a cancel all have it, whatever skip and shutdown show; every turn is for a zone with minutes due, lasts to the first step at which a flag is up or for its minutes less the early seconds, and the turns follow in plan order with no pause but the make-up waits; no zone is left on |
| SequenceRunner.WatchZone | irrigation_scheduler.py:1973-1994 | the tick-counting loop refines the recursive `Watch`: order of the cancel, skip and shutdown tests included |
| SequenceRunner.WaterZone | irrigation_scheduler.py:1968-1999 | one zone's turn: its ticks, times and cause are those of the reference turn for its minutes less the early seconds |
| SequenceRunner.WaitForNext | irrigation_scheduler.py:2010-2031 | after a skip the run goes on in the same second; otherwise it waits out the early seconds unless it is cancelled, and goes on if and only if the look after that finds the flag down |
| SequenceRunner.PlannedStarts | irrigation_scheduler.py:1569-1580 | the planned start of zone k is the base plus sixty times the minutes of the zones before it |
| SequenceRunner.WatchStopsAtFirstFlag | irrigation_scheduler.py:1974-1994 | a turn ends at the first step at which a flag is up and not before; it is cut by a skip exactly if skip is up and cancel is not |
| SequenceRunner.TurnsInOrder | irrigation_scheduler.py:1772-2031 | whatever the flags do, the zones' turns follow plan order and no two overlap in time |
| SequenceRunner.RunIsBounded | irrigation_scheduler.py:1968-2031 | however a run is interrupted, it takes at most sixty times the remaining minutes |
| SequenceRunner.DueZonesAreServed | irrigation_scheduler.py:2010-2031 | from any zone on: only the cancel flag keeps a zone with minutes due from its turn; a skip or a shutdown costs no other zone its own |
| SequenceRunner.PlannedEqualsActual | irrigation_scheduler.py:1569-1580 | an uninterrupted run starts every zone with minutes due exactly at its planned start, keeps it on for all of them but the early seconds, and takes exactly the planned total |
| SequenceRunner.CancelIsBounded | irrigation_scheduler.py:1772-1775 | once the flag is up for good (when it is, CancelledSequenceStops says) no zone passes its check, no zone gets another tick, and a zone already past its check gets no tick and is the last |
| SequenceRunner.SkipMovesOn | irrigation_scheduler.py:2010-2025 | a zone that follows a skipped one starts in the same second (that one follows is DueZonesAreServed) |
| SequenceRunner.EarlyOff | irrigation_scheduler.py:1968 | the early seconds are the number from 0 to 15 nearest to the setting |
| SkipRequests.CutsNeverOutnumberGrants | irrigation_scheduler.py:2110-2124 | at every moment of every run: cuts made plus cuts pending do not outnumber the requests answered ok |
| SkipRequests.FlagHasRequest | irrigation_scheduler.py:2119-2124 | a set flag goes back to a granted request that no zone start, poll or clean-up has forgotten since |
| SkipRequests.CutAnswersOwnRequest | irrigation_scheduler.py:1780-1782 | a cut answers a request granted after the zone's own start and after every earlier cut |
| SkipRequests.GrantsAreDebounced | irrigation_scheduler.py:2113-2118 | two granted requests for a group are at least a second apart, in every run and whoever sends them |
| SkipRequests.GrantedIff | irrigation_scheduler.py:2110-2118 | in every run a request is granted if and only if the group has a session and the clock shows a second at least, since zero and since every earlier grant |
| SkipRequests.GrantSetsFlag | irrigation_scheduler.py:2119-2124 | a granted request is not lost: unless a zone start or clean-up forgets it first, the runner's next poll cuts the zone |
| SkipRequests.SkipControl.RequestSkipCurrentZone | irrigation_scheduler.py:2093-2124 | it answers no_session exactly without a session and ok exactly a second or more after the last grant; ok sets the group's flag and clock and nothing else, any other answer changes nothing |
| SkipRequests.SkipControl.DropStale | irrigation_scheduler.py:1776-1782 | a zone starts with its group's flag down; other groups' flags stay |
| SkipRequests.SkipControl.PollSkip | irrigation_scheduler.py:1985-1990 | the poll answers the flag and takes it down; other groups' flags stay |
| SkipRequests.SkipControl.CleanUp | irrigation_scheduler.py:2063-2069 | the run's end forgets the group's flag and no other, and keeps the debounce clock |
| MissedRuns.FirstUnfinished | irrigation_scheduler.py:2251-2260 | the index loop returns the slot that contains the elapsed time: the minutes before it are over, those through it are not |
| MissedRuns.SlotIsUnique | irrigation_scheduler.py:2254-2260 | those two bounds determine the index |
| MissedRuns.Recover | irrigation_scheduler.py:2223-2285 | recovery fires exactly on a day of the program, within its span, with none of its zones on; it resumes with the zone whose slot contains now to the second; the out-of-range guard is never taken |
| JobTable.JobTableStaysExact | irrigation_scheduler.py:1136-1308 | after any sequence of schedule and cancel calls the live jobs of every program are exactly the remembered ones |
| JobTable.ScheduleKeepsExact | irrigation_scheduler.py:1136-1204 | for one schedule call, with every early exit and failure after the cancel |
| JobTable.CancelKeepsExact | irrigation_scheduler.py:1295-1308 | for one cancel call, which leaves the program no live job and takes no other program's |
| JobTable.ProgramOfJob | irrigation_scheduler.py:1225 | an id begins with a program's prefix exactly if it is that program's: decimal numbers end at the colon |
| JobTable.MainJobsDiffer | irrigation_scheduler.py:1225 | main times of different programs or weekdays have different job ids, so none replaces the other |
| JobTable.ExtraJobsDiffer | irrigation_scheduler.py:1196-1225 | so have extra times of different programs, weekdays or places in the list |
| JobTable.MainAndExtraDiffer | irrigation_scheduler.py:1186-1225 | no extra time replaces a main one |
| JobTable.TimerTestIsExact | irrigation_scheduler.py:2195-2198 | the prefix test and the equality test hit the timers of this zone, of no other, and no program job |
| JobTable.CancelZoneJobsIsExact | irrigation_scheduler.py:2190-2209 | cancelling a zone's timers removes its stop and hard-stop jobs and leaves every other zone's and every program's |
| JobTable.Jobs.CancelProgram | irrigation_scheduler.py:1295-1308 | exactly the program's remembered jobs go and none is remembered any more; exactness is kept |
| JobTable.Jobs.ScheduleSingleTime | irrigation_scheduler.py:1206-1293 | the ids that one start time adds: one per listed weekday up to the first number that is none, one per interval or even-odd schedule, none for a bad time |
| JobTable.Jobs.ScheduleExtraTimes | irrigation_scheduler.py:1188-1197 | all extra times, each under its own index |
| JobTable.Jobs.ScheduleProgram | irrigation_scheduler.py:1136-1204 | a switched-off program loses its jobs; one without a parsable time, zones or weekdays keeps them; otherwise the old jobs go, and those of the main time and of each extra time, in order, are live and remembered; other programs keep theirs and exactness is kept |
| JobTable.Jobs.CancelZoneJobs | irrigation_scheduler.py:2190-2209 | removes exactly the jobs that the two tests select |
| Decimal.PrintUpToMark | irrigation_scheduler.py:1225 | a number printed before a non-digit can be read back: equal texts have equal numbers and equal rests |
| Decimal.PrintIsInjective | irrigation_scheduler.py:2197 | different numbers print differently |
| ProgramConflicts.CheckProgramConflicts | db/programs.py:324-422 | every stored program that is on at a common minute of a common day in a zone of the same group is reported, and nothing else, with the common zones, groups and days and the overlap from the later start to the earlier end; in table order |
| ProgramConflicts.NoReportsMeansNoConflict | db/programs.py:324-422 | the report is empty if and only if the relation holds with no other stored program |
| ProgramConflicts.ConflictsIsSymmetric | db/programs.py:406 | the overlap relation is symmetric |
| ProgramConflicts.CommonZoneIsCommonGroup | db/programs.py:334-340 | a common zone implies a common group, so the first half of the test never decides |
| ProgramConflicts.RequestKeepsConflictFree | routes/programs_api.py:33-56 | one create, update or delete keeps the table conflict-free and ids unique if its day list is stored as checked, or what it stores has no time of day or no zone, or no zone of the table takes time |
| ProgramConflicts.EndpointsKeepConflictFree | routes/programs_api.py:83-109 | so does any sequence of such requests: programs with a common day and a common group stay on disjoint spans |
| ProgramConflicts.RequestIsSafeIff | db/programs.py:58-65 | a request keeps every conflict-free table conflict-free if and only if it is one of those (or an update of no row) |
| ProgramConflicts.VerdictAgainstPlainCheck | db/programs.py:353-388 | an error of the extended check is always a conflict of the plain one; they agree on a stored program that waters one group |
| ProgramConflicts.VerdictMeans | db/programs.py:353-390 | an error is a meeting with the stored program's part in the group; a warning, which needs a factor above 100, a meeting with the part by which the factor stretches it, and with no other |
| ProgramConflicts.VerdictGrowsWithFactor | db/programs.py:362-390 | a higher weather factor hides nothing that a lower one shows, and never turns a warning into an error |
| ProgramConflicts.ProgramTable.ApiCreateProgram | routes/programs_api.py:83-121 | refused exactly if it clashes with a stored program, and then nothing changes; otherwise there is one row more, with an id one above all others, the requested start and zones, and the requested days as they are if one lies outside 1..7, each one less otherwise |
| ProgramConflicts.ProgramTable.ApiUpdateProgram | routes/programs_api.py:33-66 | refused exactly if it clashes with another stored program, and then nothing changes; otherwise exactly the rows with that id have the requested contents, days as for a create |
| ProgramConflicts.ProgramTable.ApiDeleteProgram | routes/programs_api.py:68-78 | exactly the rows with that id go; the others keep their order |
| DurationChecks.CheckDuration | routes/zones_crud_api.py:575-632 | every ordered pair of programs that would be on at a common minute of a common day, the first with the zone at the new minutes in each of its places, in common zones or a common group, has its finding, and every finding is of such a pair |
| DurationChecks.CheckOne | routes/zones_crud_api.py:594-632 | the inner loop: one program at its new length against every other at its old one |
| DurationChecks.LengthWith | routes/zones_crud_api.py:586-591 | the loop computes the program's length with the zone at the new number of minutes, whatever number that is |
| DurationChecks.LengthIfIsLength | routes/zones_crud_api.py:586-591 | for minutes from zero up that is the program's length in the table after the change |
| DurationChecks.PairStaysApart | routes/zones_crud_api.py:592-618 | if each of two programs at its new length is apart from the other at its old one, they are apart after the change, even when both grow |
| DurationChecks.SufficientForTable | routes/zones_crud_api.py:575-632 | so nothing reported means a conflict-free table after the change |
| DurationChecks.LongerIsFreeIff | routes/zones_crud_api.py:575-632 | for a zone that takes time and is made longer the check is exact: the table is conflict-free afterwards if and only if nothing is reported |
| DurationChecks.OneSidedCheckSufficesIff | routes/zones_crud_api.py:575-632 | for all tables if and only if the zone takes at least a minute now or still takes none afterwards |
| DurationChecks.RelatedIsSharingAGroup | routes/zones_crud_api.py:602-606 | on known zones this check's notion of related programs is that of the program table |
| NextStart.ScanFindsLeast | db/zones.py:891-897 | the first hit of the day-by-day search is the least start strictly after the bound over all future dates |
| NextStart.ScanIsComplete | db/zones.py:891-897 | a search of eight days or more hits if and only if the day list holds a weekday, and then finds the next start |
| NextStart.HorizonsAgree | routes/zones_crud_api.py:365-371 | the 14-day and 15-day searches always agree |
| NextStart.EightDaysSufficeExactly | routes/zones_crud_api.py:437-444 | eight days is the least horizon that never misses |
| NextStart.ScanDays | routes/zones_crud_api.py:437-444 | a search of eight days or more returns the first second after the bound that falls on one of the program's weekdays at its minute, and none only without a weekday |
| NextStart.NextDayStartIsScan | routes/zones_crud_api.py:504-511 | the search from tomorrow on agrees with the bounded search started there |
| NextStart.ScanFromTomorrow | routes/zones_crud_api.py:504-511 | the first such second after the end of today, and none only without a weekday |
| ZoneOffsets.OffsetsAgreeInList | db/zones.py:898-906 | on an ascending list the minutes before a zone's first and last place agree if and only if it occurs once or takes no time |
| ZoneOffsets.MinutesBefore | db/zones.py:898-906 | the per-zone loop stops at the zone's first place |
| ZoneOffsets.OffsetEntry | routes/zones_crud_api.py:395-399 | the bulk dictionary keeps the zone's last place |
| Common.TotalMinutes | routes/zones_crud_api.py:425-427 | the loop adds up the program's minutes, repeated zones counting again |
| ZoneOffsets.OffsetsOrdered | routes/zones_crud_api.py:395-399 | a zone's last place is never before its first one |
| Common.SortedAscends | db/zones.py:899 | the sorted list ascends |
| Common.SortedPermutes | db/zones.py:899 | the sorted list holds the same zones as often |
| NextRun.ComputeNextRunForZone | db/zones.py:867-910 | the answer lies after now and after the postponement, if any; it is the earliest time at which a program that starts after both comes to the zone's first place in ascending order; there is none exactly if no program of the zone has a weekday |
| NextRun.NextRunIsMinimum | db/zones.py:886-908 | that is the minimum, over the programs that water the zone, of next start plus minutes before it; it lies after the bound; there is none exactly if no such program has a weekday |
| NextRun.BestIsLeast | db/zones.py:903-904 | the running best is the least offer, and none only if there is no offer |
| NextRun.KeepBest | db/zones.py:903-904 | the comparison in both loops keeps the least of one offer more |
| NextRun.MakeOffer | db/zones.py:887-907 | one program's offer to a zone |
| NextRun.OffsetsAgreeIff | routes/zones_crud_api.py:395-399 | both interfaces see the same minutes before a zone if and only if the program lists it once or it takes no time |
| NextRun.QuietOffersCompare | routes/zones_crud_api.py:474-522 | a program neither under way nor cancelled offers in bulk never earlier than per zone, and the same exactly if it lists the zone once or the zone takes no time |
| NextRun.AnswersAgreeIff | routes/zones_crud_api.py:452-525 | for a zone of such programs both interfaces answer the same if and only if there is no next run, or some program with the earliest offer lists the zone once or the zone takes no time |
| NextRun.AnswersAgreeForOneIff | routes/zones_crud_api.py:395-399 | with one such program the answers agree exactly if it lists the zone once or the zone takes no time |
| NextRun.BulkNextRun | routes/zones_crud_api.py:452-525 | the answer lies after now and after the postponement; it is the earliest time, so limited, at which a program's shown run comes to the zone's last place: the first run after a postponement, the first after today if today's is cancelled, today's while under way and its minute not over, the next one otherwise |
| NextRun.MakeBulkOffer | routes/zones_crud_api.py:408-522 | one program's bulk offer, with the run in progress, the postponement and today's cancellation |
| NextRun.MakeRunningOffer | routes/zones_crud_api.py:482-490 | the offer of a run under way: later today, or at the next run (BulkNextRun says which) |
| NextRun.MakeUpcomingOffer | routes/zones_crud_api.py:491-518 | the offer of the next run after the bound, passing over a cancelled one |
| NextRun.TodayOrLater | routes/zones_crud_api.py:437-444 | the next start is today's if still to come, else the next day's of the program |
| NextRun.OffersAgreeIff | routes/zones_crud_api.py:474-522 | one program's two offers agree if and only if the zone is postponed, or the cancelled run has started, or an uncancelled run under way is past the zone |
| NextRun.BulkAgreesWithPerZone | routes/zones_crud_api.py:452-525 | both interfaces give the same next run for a zone listed once per program, with no such program in progress or cancelled |
| NextRun.PlannedStarts.RescheduleGroup | db/zones.py:915-927 | every zone of the group has on record its next run, after now and after its own postponement, or none; no other zone changes |
| RateLimiter.ApiRateLimiter.IsAllowed | services/api_rate_limiter.py:40-66 | decision and new dictionary of one call, the periodic pruning and the raising case included; a refusal leaves the limit's number of requests or more on record, and its answer is the whole seconds, and less than one more, until the oldest leaves the window |
| RateLimiter.ApiRateLimiter.PruneOld | services/api_rate_limiter.py:28-37 | every key keeps exactly the entries newer than the cutoff; keys without one go |
| RateLimiter.ApiRateLimiter.Filter | services/api_rate_limiter.py:56 | exactly the entries newer than the cutoff are kept, each as often as before |
| RateLimiter.DecisionsMatchHistory | services/api_rate_limiter.py:40-66 | in every run with a running clock, a key with one window of at most 120 s is decided as on the full history of its allowed requests, whatever other keys do |
| RateLimiter.AllowedIff | services/api_rate_limiter.py:58-66 | in every such run a call is allowed if and only if fewer of the key's allowed requests than its limit are in its window |
| RateLimiter.CallKeepsAgreement | services/api_rate_limiter.py:49-66 | one call: the pruned list and the history look alike through every window still in use |
| RateLimiter.RecentTwice | services/api_rate_limiter.py:33 | filtering by an older cutoff first changes nothing |
| RateLimiter.WindowIsSafeIff | services/api_rate_limiter.py:28 | the pruned dictionary decides as the history in all runs of a started process if and only if the window is at most 120 s |
| RateLimiter.RaisesIff | services/api_rate_limiter.py:58-60 | in every run, a key with one limit has its calls raise exactly if that limit is below one |
| RateLimiter.WindowNeverOverfull | services/api_rate_limiter.py:58-66 | for windows up to 120 s, no half-open window of that length ever holds more requests allowed by the pruned dictionary than the agreed number |
| RateLimiter.AllowedIsHistory | services/api_rate_limiter.py:49-66 | the requests that the pruned dictionary allows are exactly the history on which the decisions are defined |
| RateLimiter.RetryAfterIsEnough | services/api_rate_limiter.py:60-62 | a refused caller who returns after retry_after, with none of its requests allowed meanwhile, is allowed |
| RateLimiter.RetryAfterIsTight | services/api_rate_limiter.py:60-62 | the answer is the time until the oldest request in the window leaves it, less than a second more; so from one second to the window plus one |
| RateLimiter.LetInAgainIff | services/api_rate_limiter.py:58-66 | a refused caller who has had nothing allowed since is let in again if and only if that oldest request has left the window |
| ZoneRows.VersionedWritesFormAChain | db/zones.py:296-322 | in every interleaving of snapshot reads and guarded writes the successful writes of a zone form one chain of reported previous rows, each of which has exactly its given fields written, and the version is the first one plus their number |
| ZoneRows.NoUpdateIsLost | db/zones.py:309-322 | along such a chain every field holds what the last write that set it gave it, or its first value if none did |
| ZoneRows.ActionKeepsChain | db/zones.py:302-322 | one read or guarded write keeps the chain |
| ZoneRows.FreshTableIsChained | db/zones.py:302-303 | a table nobody has written to is a chain of no writes |
| ZoneRows.SecondWriterLoses | db/zones.py:317-322 | of two writers with the same snapshot only the first changes the row |
| ZoneRows.ZoneTable.GuardedUpdate | db/zones.py:309-322 | the row changes exactly if it still has the snapshot's version: version one up, the given fields written, the others kept |
| ZoneRows.ZoneTable.UpdateZoneVersioned | db/zones.py:270-322 | inside one transaction the write fails only for a missing zone; it reports the row it replaced and writes exactly the given fields |
| ZoneRuns.NoUnconfirmedSuccess | db/zones.py:761-824 | a run on record as ok has ended and goes back to a confirmation that came for its zone while that very run was open |
| ZoneRuns.SuccessIsTrue | db/zones.py:780-824 | after any run of create, confirm, finish and boot clean-up steps every ok row is confirmed and ended |
| ZoneRuns.ConfirmationHappened | db/zones.py:761-777 | a confirmed row was confirmed while it was open |
| ZoneRuns.ConfirmedIff | db/zones.py:761-777 | a row is confirmed if and only if a confirmation came for its zone while it was open |
| ZoneRuns.FinishedIsOkIff | db/zones.py:780-824 | a finished row is on record as ok if and only if it was last finished as ok and was confirmed by then, with the end it was finished with |
| ZoneRuns.RunsAreKept | db/zones.py:702-824 | rows, zones, confirmations and ends are never lost |
| ZoneRuns.OpenRunIsNewest | db/zones.py:745-755 | the open run is the newest row of the zone without an end |
| ZoneRuns.BootAbortLeavesRunsOpen | services/app_init.py:142-158 | the boot clean-up changes nobody's open run |
| ZoneRuns.LastWateringIsMaximum | db/zones.py:826-846 | the last watering is the greatest end among the zone's ok rows, and none if it has none |
| ZoneRuns.ZoneRunTable.CreateZoneRun | db/zones.py:702-740 | appends an open, unconfirmed row |
| ZoneRuns.ZoneRunTable.MarkZoneRunConfirmed | db/zones.py:761-777 | confirms the zone's open rows and no other |
| ZoneRuns.ZoneRunTable.FinishZoneRun | db/zones.py:780-824 | ends the row; ok stays ok exactly if the row is confirmed, any other status stays |
| ZoneRuns.ZoneRunTable.AbortOpenRuns | services/app_init.py:151-158 | relabels the open rows without a status |
| ZoneRuns.ZoneRunTable.GetOpenZoneRun | db/zones.py:745-755 | the newest row of the zone without an end |
| ZoneRuns.ZoneRunTable.GetLastWateringTime | db/zones.py:826-846 | the greatest end among the zone's ok rows, none without one |
| ZoneRuns.ZoneRunTable.LastMap | db/zones.py:41-52 | the grouped query holds, for every zone, exactly what the single-zone query answers |
| Redaction.SecretsDoNotLeak | services/audit.py:119-164 | two values that differ only under secret names, at any depth, are redacted to the same result |
| Redaction.EntriesAreKept | services/audit.py:139-150 | the first entries of a dictionary keep their keys and places, with the mask under secret names only and the redacted value under every other |
| Redaction.OrdinaryIsKept | services/audit.py:119-164 | a value without secret names, within the depth, size and length limits, is logged as it is |
| Redaction.ItemsAreKept | services/audit.py:151-152 | of a list the first 64 items are logged, each redacted for itself |
| Redaction.LargeDictIsNoted | services/audit.py:141-144 | of a larger dictionary the first 64 entries are, and a note says so |
| Redaction.SummaryTellsSize | services/audit.py:126-131 | past the depth limit two dictionaries, or two lists, are logged alike if and only if they are of one size |
| Redaction.TraceIsBounded | services/audit.py:119-164 | every result is at most nine containers deep with at most 65 entries each and short texts, and every secret name holds the mask |
| Redaction.SecretNamesAreStable | services/audit.py:111-116 | a secret name stays secret in any capitalisation and inside any longer name |
| DebugFlag.AnswersAreRecent | services/audit.py:53-74 | every answer is what the settings held less than five seconds before a cached answer, or since the lookup began |
| DebugFlag.InvalidationTakesEffectIff | services/audit.py:77-85 | in every continuation each answer after an invalidation is a value the settings held since, if and only if every fetched value waiting to be stored is what the settings hold |
| DebugFlag.InvalidationForcesReadsIff | services/audit.py:65-74 | every later answer is read anew, in every continuation, if and only if no fetched value waits at all |
| DebugFlag.LateStoreUndoesInvalidation | services/audit.py:71-73 | from any run with a waiting value that differs: its store answers it and caches it |
| DebugFlag.LateStoreHappens | services/audit.py:65-74 | such a run exists from the start: the flag is on, and a lookup answers that it is off |
| DebugFlag.DebugFlagCache.IsDebugAuditEnabled | services/audit.py:53-74 | an undisturbed lookup answers and caches the settings when the cache is five seconds old, and otherwise answers the cached value and changes nothing; every lookup of the next five seconds answers the same, and it is a run of the lookup steps |
| DebugFlag.DebugFlagCache.InvalidateDebugAuditCache | services/audit.py:77-85 | from then on every undisturbed lookup answers what the settings hold |
| Migrations.CrashesConverge | db/migrations.py:20-235 | any number of starts, each cut off between any two statements, followed by a complete one, end with the columns, rows, day lists and record of one complete start |
| Restarts.StopsConverge | db/migrations.py:20-235 | the same for any list of steps that are skipped when done, keep each other done, and come out the same when resumed |
| Restarts.RestartConverges | db/migrations.py:20-235 | one start cut off anywhere, then a complete one |
| Migrations.InitIsRestartable | db/migrations.py:268-278 | the initialisation is such a list of steps |
| Migrations.CutOffContinues | db/migrations.py:268-278 | whatever is on disk after a cut, tables and records are kept and the migration comes out the same |
| Migrations.MigrationResumes | db/migrations.py:268-278 | a plan cut off anywhere and decided anew has the effect of the complete plan |
| Migrations.AddColumnsResumes | db/migrations.py:394-404 | for guarded column additions: what was added stays, the rest is what the guard finds missing |
| Migrations.AddingMeans | db/migrations.py:394-404 | afterwards every listed column exists behind the old ones, with its default in every row; all rows and old values are kept |
| Migrations.NewTableResumes | db/migrations.py:640-665 | for recorded table creations: the table is there at once and is not created again |
| Migrations.MissingAfterSome | db/migrations.py:396-399 | after some of the missing columns exist, exactly the others are missing |
| Migrations.DaysEffect | db/migrations.py:363-392 | until the commit the disk is untouched; then every day list is converted |
| Migrations.ShiftedMeans | db/migrations.py:369-383 | a day list with a number outside 0..6 becomes the ascending list of its days, each moved down by one and to the nearest weekday; any other stays |
| Migrations.RecordCloses | db/migrations.py:275-276 | the record and its commit put the plan's effect and the name on disk together |
| Migrations.ShiftedTwice | db/migrations.py:369-383 | the conversion leaves its own output alone |
| Migrations.DropColumnsEffect | db/migrations.py:354-359 | until its commit the rebuild changes nothing on disk but the copy; then the table has the kept columns and the copy is gone |
| Migrations.RebuildKeepsRows | db/migrations.py:311-359 | the rebuild keeps every row, in order, with its values in the columns that stay |
| Migrations.MigrationRunner.Run | db/migrations.py:268-278 | one statement on a connection, with implicit transactions |
| Migrations.MigrationRunner.ApplyNamedMigration | db/migrations.py:268-278 | on record: nothing changes; otherwise the migration is on record afterwards and has done to tables and day lists what its kind says, and nothing else; no transaction is open |
| Migrations.MigrationRunner.InitDatabase | db/migrations.py:20-235 | all migrations in order, each on what the last one left |
| Watchdog.PassRestoresExclusivity | app.py:636-661 | after a pass a real group has at most one running zone beside its master valve, namely the one with the latest parsable start; masters, idle zones and groups 0 and 999 are untouched |
| Watchdog.SecondPassIsIdle | app.py:636-661 | a second pass changes nothing |
| Watchdog.ExclusiveGroupIsUntouched | app.py:568-570 | a group that is exclusive already is left alone |
| Watchdog.SomeLeader | app.py:581-582 | a group with a running zone has a latest one, so no group loses its watering altogether |
| Watchdog.TopIsLeader | app.py:574-582 | the head of the stable sort by start time, latest first, is the group's leader |
| Watchdog.LeaderIsUnique | app.py:574-582 | a group has one leader at most |
| Watchdog.ZoneStates.ForceGroupExclusive | app.py:553-617 | sorts the running zones and stops all but the first |
| Watchdog.ZoneStates.EnforceGroupExclusiveAllGroups | app.py:636-661 | one pass: a zone that waters in a real group and is not its master valve goes off, losing its start and nothing else, exactly if another such zone of the group started later, or at the same time and stands before it; every other zone is as it was |
| Watchdog.ZoneStates.RunningZones | app.py:568 | the running zones of a group that are not its master valve, in table order |
| Watchdog.ZoneStates.StopZones | app.py:582-600 | exactly the listed zones go off |
| Watchdog.ZoneStates.GroupsOf | app.py:639-644 | the real groups, each once |

## Left out

- NoStuckSession: does not cover runs in which a cancel removes the queue of a group nobody works for; there the claim is false, and CancelKeepsCoveredIff says exactly when.
- GroupSessions: the health endpoint that cancels sequences, and queued jobs that the job store drops by misfire, are not actions of the model.
- GroupSessions: the guard of a program reads one group per action; a start call that slips in after its group was read is possible in the model and in the code.
- SessionTable.IrrigationScheduler.BeginProgram: states the guard and the planting without interference; their interleavings are in GroupSessions. So do the other functions of SessionTable.
- SequenceRunner: the watering loop of `_run_program_threaded`; only its session part is modelled.
- SequenceRunner: the weather skip before a sequence, and what else shutdown stops; in the loop it cuts the turn it meets and the run goes on.
- SequenceRunner: per-zone minutes are an arbitrary map; how overrides and percentages produce them is not part of this model.
- SequenceRunner: planned starts are written for the zones in the order given; that database write, and zones deleted meanwhile, are one map here.
- SkipRequests: requests are atomic steps and a group has one runner; two sequences of one group share the flag in the code.
- MissedRuns: the job id of a recovered run and programs whose time does not parse; a main time is minutes after midnight.
- JobTable: triggers, misfire handling, jobs kept by a persistent store over a restart, and `extra_times` given as JSON text or holding non-strings.
- JobTable: the bookkeeping of `active_zones`.
- ProgramConflicts.CheckProgramConflicts: the list built by the extended check (names, rounded minutes, weather coefficient) is reduced to a verdict per common group, with percentages as integers.
- ProgramConflicts: program duplication, the enabled switch, extra start times, and database errors; zones stay fixed while programs change.
- ProgramConflicts: new ids are one more than the largest present; the table may skip ids of deleted rows.
- DurationChecks.SufficientForTable: new durations from zero up; the endpoint also checks negative ones (CheckDuration), which no table of the model holds. Several changes at once are checked one by one in the code, and nothing is claimed about their combination.
- NextRun.ComputeNextRunForZone: the zone is taken to exist and programs to have a well-formed time; answers are times, not their printed form.
- NextRun.BulkNextRun: a weather skip moves the present moment to the next midnight before all of this; it is part of `now` here. Which programs are cancelled today is an input.
- RateLimiter: windows above 120 s have only the counterexample, and keys used with several limits no bound.
- ZoneRows: writers that do not use the version (`update_zone`, bulk updates) and zone deletion.
- ZoneRuns: end times are integers in place of sortable text, so an empty end time does not occur; litres, pulses and sources are left out.
- Redaction: keys are text; lower-casing covers ASCII letters only; floats are left out beside integers; values whose text cannot be made are left out.
- DebugFlag: the settings read never fails; the clock is whole seconds and past its first five.
- Migrations.CrashesConverge: column types and constraints, indexes, settings and initial rows, the encryption, unit and backfill migrations, downgrades, and errors of the database. `queue_and_float_support` extends two tables, creates two and adds settings under one record; here that takes one migration per table.
- Migrations.CrashesConverge: an AddColumns migration lists distinct columns, as all of them do.
- Watchdog: topics are taken as normalised; publishing and the fallbacks when stopping a zone fails are left out.
- Flask routing, sessions, MQTT, SQLite, APScheduler, weather services, Telegram, backups and templates: I/O and foreign code.
